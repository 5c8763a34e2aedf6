/**
 * The details service's request handlers (`details.rb`): the header
 * allowlist filter, the `/details` handler with its numeric-id check, the
 * constant movie record and `/health`. The WEBrick server around them is
 * not modelled; a handler's response object is the `HttpResponse` class.
 */
module Details {
  import opened Wrappers
  import Numbers
  import Paths

  /** `incoming_headers`: the request headers the handler keeps. */
  const IncomingHeaders: seq<string> := [
    "x-request-id",
    "x-ot-span-context",
    "x-datadog-trace-id",
    "x-datadog-parent-id",
    "x-datadog-sampling-priority",
    "traceparent",
    "tracestate",
    "x-cloud-trace-context",
    "grpc-trace-bin",
    "x-b3-traceid",
    "x-b3-spanid",
    "x-b3-parentspanid",
    "x-b3-sampled",
    "x-b3-flags",
    "sw8",
    "end-user",
    "user-agent",
    "cookie",
    "authorization",
    "jwt"
  ]

  /**
   * `get_forward_headers`: walks the request's headers and keeps, with its
   * value unchanged, each one whose name is in `incoming_headers`.
   */
  method GetForwardHeaders(request: map<string, string>) returns (headers: map<string, string>)
    ensures forall header :: header in headers <==> header in request && header in IncomingHeaders
    ensures forall header :: header in headers ==> headers[header] == request[header]
  {
    headers := map[];
    var remaining := request.Keys;
    while remaining != {}
      invariant remaining <= request.Keys
      invariant forall header :: header in headers <==>
                  header in request && header !in remaining && header in IncomingHeaders
      invariant forall header :: header in headers ==> headers[header] == request[header]
      decreases remaining
    {
      var header :| header in remaining;
      if header in IncomingHeaders {
        headers := headers[header := request[header]];
      }
      remaining := remaining - {header};
    }
  }

  /** The record `get_movie_details` answers with. */
  datatype MovieDetails = MovieDetails(
    id: int,
    title: string,
    studio: string,
    runtime: int,
    genre: string,
    language: string)

  /** `get_movie_details`: the same record for every movie, carrying the id asked for. */
  function GetMovieDetails(id: int, headers: map<string, string>): (d: MovieDetails)
    ensures d.id == id
  {
    MovieDetails(id, "Interstellar", "Paramount Pictures, Warner Bros. Pictures", 169, "Sci-Fi, Drama", "English")
  }

  /** Only the id varies; the headers never matter. */
  lemma DetailsDependOnlyOnId(i: int, j: int, h1: map<string, string>, h2: map<string, string>)
    ensures GetMovieDetails(i, h1) == GetMovieDetails(j, h2).(id := i)
    ensures GetMovieDetails(i, h1).title == "Interstellar" && GetMovieDetails(i, h1).runtime == 169
  {
  }

  /** Ruby `to_json` of the details record. */
  function DetailsJson(d: MovieDetails): string
  {
    "{\"id\":" + Numbers.IntToString(d.id) + FieldsJson(d)
  }

  /** The part of the record's JSON after its id. */
  function FieldsJson(d: MovieDetails): string
  {
    ",\"title\":\"" + d.title
    + "\",\"studio\":\"" + d.studio
    + "\",\"runtime\":" + Numbers.IntToString(d.runtime)
    + ",\"genre\":\"" + d.genre
    + "\",\"language\":\"" + d.language
    + "\"}"
  }

  /** The body of a details answer names the movie: equal bodies mean equal ids. */
  lemma DetailsJsonIdentifiesMovie(i: int, j: int, h1: map<string, string>, h2: map<string, string>)
    requires DetailsJson(GetMovieDetails(i, h1)) == DetailsJson(GetMovieDetails(j, h2))
    ensures i == j
  {
    var head := "{\"id\":";
    var x, y := Numbers.IntToString(i), Numbers.IntToString(j);
    var tail := FieldsJson(GetMovieDetails(i, h1));
    assert FieldsJson(GetMovieDetails(j, h2)) == tail;
    var body := head + x + tail;
    assert body == head + y + tail;
    assert |x| == |y|;
    assert x == body[|head|..|head| + |x|];
    assert y == body[|head|..|head| + |y|];
    Numbers.ParseIntToString(i);
    Numbers.ParseIntToString(j);
  }

  /** Ruby `to_json` of an `{'error' => message}` hash. */
  function ErrorJson(message: string): string
  {
    "{\"error\":\"" + message + "\"}"
  }

  /** The 400 body can never be mistaken for a details body. */
  lemma ErrorJsonIsNotDetails(message: string, d: MovieDetails)
    ensures ErrorJson(message) != DetailsJson(d)
  {
    assert ErrorJson(message)[2] == 'e';
    assert DetailsJson(d)[2] == 'i';
  }

  const NumericIdMessage := "please provide numeric movie id"
  const HealthBody := "{\"status\":\"Movie Details is healthy\"}"

  /** `Integer(pathParts[-1])`: the movie id, or None where Ruby raises. */
  function MovieId(path: string): (r: Option<int>)
    ensures Paths.LastSegment(path).None? ==> r.None?
  {
    match Paths.LastSegment(path)
    case None => None
    case Some(segment) => Numbers.ParseInteger(segment)
  }

  /** A path ending in a rendered integer names that integer, with or without a trailing slash. */
  lemma MovieIdOfNumericPath(prefix: string, id: int)
    ensures MovieId(prefix + "/" + Numbers.IntToString(id)) == Some(id)
    ensures MovieId(prefix + "/" + Numbers.IntToString(id) + "/") == Some(id)
  {
    var segment := Numbers.IntToString(id);
    assert '/' !in segment by {
      forall k | 0 <= k < |segment| ensures segment[k] != '/' { }
    }
    Paths.LastSegmentAfterSlash(prefix, segment);
    Paths.LastSegmentIgnoresTrailingSlash(prefix + "/" + segment);
    Numbers.ParseIntToString(id);
  }

  /** A last segment that is not an integer is refused. */
  lemma MovieIdRejects(prefix: string, segment: string)
    requires segment != "" && '/' !in segment && Numbers.ParseInteger(segment).None?
    ensures MovieId(prefix + "/" + segment) == None
  {
    Paths.LastSegmentAfterSlash(prefix, segment);
  }

  /** The empty path has no last segment, so no movie id. */
  lemma MovieIdOfEmptyPath()
    ensures MovieId("") == None
  {
    assert Paths.Split("", '/') == [""];
  }

  /** Nor has "/", which Ruby splits into no pieces at all. */
  lemma MovieIdOfRootPath()
    ensures MovieId("/") == None
  {
    MovieIdOfEmptyPath();
    Paths.LastSegmentIgnoresTrailingSlash("");
    assert "" + "/" == "/";
  }

  /** The response object WEBrick hands to a handler: status 200 and no body until set. */
  class HttpResponse {
    var status: int
    var body: string
    var contentType: Option<string>

    constructor ()
      ensures status == 200 && body == "" && contentType == None
    {
      status := 200;
      body := "";
      contentType := None;
    }
  }

  /** The `/health` handler. */
  method HealthProc(res: HttpResponse)
    modifies res
    ensures res.status == 200
    ensures res.body == HealthBody
    ensures res.contentType == Some("application/json")
  {
    res.status := 200;
    res.body := HealthBody;
    res.contentType := Some("application/json");
  }

  /**
   * The `/details` handler: the movie's record when the last path segment is
   * an integer (status left as it was), otherwise 400 with the error body.
   */
  method DetailsProc(path: string, request: map<string, string>, res: HttpResponse)
    modifies res
    ensures res.contentType == Some("application/json")
    ensures MovieId(path).Some? ==>
              res.status == old(res.status)
              && res.body == DetailsJson(GetMovieDetails(MovieId(path).value, map[]))
    ensures MovieId(path).None? ==> res.status == 400 && res.body == ErrorJson(NumericIdMessage)
  {
    var pathParts := Paths.SplitPath(path);
    var headers := GetForwardHeaders(request);
    var id: Option<int> := None;
    if pathParts != [] {
      id := Numbers.ParseInteger(pathParts[|pathParts| - 1]);
    }
    if id.Some? {
      var details := GetMovieDetails(id.value, headers);
      res.body := DetailsJson(details);
      res.contentType := Some("application/json");
    } else {
      res.body := ErrorJson(NumericIdMessage);
      res.contentType := Some("application/json");
      res.status := 400;
    }
  }
}
