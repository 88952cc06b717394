/**
 * The request helpers of the bridge between the FDPG portal and TORCH:
 * rehosting the NDJSON file URLs TORCH reports, collecting patient ids from
 * an NDJSON file, classifying the answers to the extraction request and to
 * the status poll, and the base64 text of the serialised query.
 *
 * The environment is a Config value, each HTTP exchange is an input (a
 * response value, or a function from URL to response), and the JSON library
 * is a pair of functions `dumps` and `loads` the callers pass in.
 */
module TorchRequests {
  import opened Wrappers
  import opened Json
  import opened Text
  import Base64

  /** The environment variables the bridge reads; None where a variable is unset. */
  datatype Config = Config(
    groupReference: Option<string>,  // FDPG_GROUP_REFERENCE
    torchBaseUrl: Option<string>,    // TORCH_BASE_URL
    nginxServer: Option<string>,     // TORCH_NGINX_SERVER
    basicAuth: Option<string>,       // TORCH_BASIC_AUTH
    username: Option<string>,        // TORCH_USERNAME
    password: Option<string>)        // TORCH_PASSWORD

  /** The exceptions that escape the helpers, one per cause. */
  datatype Fault =
    | ConfigError(message: string)  // ValueError raised for a missing variable
    | BaseUrlUnset                  // TypeError: None + str when TORCH_BASE_URL is unset
    | MalformedJson                 // the body or an NDJSON line is not JSON
    | LookupFailed                  // KeyError, IndexError or TypeError on a subscript
    | NoMethod                      // AttributeError: .get or .replace on a value without it
    | NotIterable                   // TypeError: iterating or extending by a value that is not iterable
    | NothingToUnpack               // TypeError: unpacking the None a status poll below 200 gives
    | TemplateMissing               // a JSON template could not be loaded and is subscripted
    | SchemaRejected                // the schema validator could not use the schema

  const NginxUnset := "Error: Environment variable TORCH_NGINX_SERVER is not set!"
  const BaseUrlMissing := "Error: Environment variable TORCH_BASE_URL is not set!"
  const CredentialsMissing := "Error: Environment variables TORCH_USERNAME or TORCH_PASSWORD missing"

  /** The path TORCH puts in front of a job id in its status URLs. */
  const StatusPrefix := "/fhir/__status/"

  /** A TORCH answer: status code, headers (names lower-cased, as lookups ignore case) and the parsed JSON body, None when it does not parse. */
  datatype HttpResponse = HttpResponse(status: int, headers: map<string, string>, body: Option<Json>)

  /** An NDJSON file download: status code and the body split into lines (bytes, without the line breaks). */
  datatype NdjsonResponse = NdjsonResponse(status: int, lines: seq<seq<Byte>>)

  /** What `create_torch_request` returns: the job id to poll, or the status code of a refused request. */
  datatype Submission = Location(id: string) | StatusCode(code: int)

  /** What a status poll reports: the rehosted file URLs of a finished job, or a payload for the caller. */
  datatype Poll = Done(urls: seq<string>) | NotDone(info: Json)

  /** An HTTP POST as sent: target URL and JSON body, None for a POST without one. */
  datatype Request = Request(url: string, body: Option<Json>)

  // ---------------------------------------------------------------------------
  // extract_file_url

  /**
   * The values `for elem in v` visits: a list's items, a dict's keys and a
   * string's characters (both as strings); None where Python raises TypeError.
   */
  function Elements(v: Json): (r: Option<seq<Json>>)
    ensures r.Some? <==> v.JArray? || v.JObject? || v.JString?
    ensures v.JArray? ==> r == Some(v.items)
    ensures r.Some? && !v.JArray? ==> forall k | 0 <= k < |r.value| :: r.value[k].JString?
    ensures v.JObject? ==> |r.value| == |v.members| && forall k | 0 <= k < |v.members| :: r.value[k] == JString(v.members[k].0)
    ensures v.JString? ==> |r.value| == |v.s| && forall k | 0 <= k < |v.s| :: r.value[k] == JString([v.s[k]])
  {
    match v
    case JArray(items) => Some(items)
    case JObject(members) => Some(seq(|members|, k requires 0 <= k < |members| => JString(members[k].0)))
    case JString(s) => Some(seq(|s|, k requires 0 <= k < |s| => JString([s[k]])))
    case _ => None
  }

  /** `elem.get("url")` followed by `.replace`: the url of a dict entry when it is a string; None where Python raises AttributeError. */
  function EntryUrl(elem: Json): Option<string>
  {
    if elem.JObject? then
      match Lookup(elem.members, "url")
      case Some(JString(u)) => Some(u)
      case _ => None
    else None
  }

  /**
   * The loop of `extract_file_url` over the entries: one URL per entry, in
   * entry order, each with every occurrence of the TORCH base URL replaced by
   * the proxy URL; AttributeError at the first entry without a string url.
   */
  function RehostEach(items: seq<Json>, torchUrl: string, nginxUrl: string): (r: Result<seq<string>, Fault>)
    ensures r.Ok? <==> forall k | 0 <= k < |items| :: EntryUrl(items[k]).Some?
    ensures r.Err? ==> r.error == NoMethod
    ensures r.Ok? ==> |r.value| == |items|
    ensures r.Ok? ==> forall k | 0 <= k < |items| :: r.value[k] == ReplaceAll(EntryUrl(items[k]).value, torchUrl, nginxUrl)
  {
    if items == [] then Ok([])
    else match EntryUrl(items[0])
      case None => Err(NoMethod)
      case Some(u) =>
        match RehostEach(items[1..], torchUrl, nginxUrl)
        case Err(f) =>
          assert exists k | 0 <= k < |items| :: EntryUrl(items[k]).None? by {
            var k :| 0 <= k < |items[1..]| && !EntryUrl(items[1..][k]).Some?;
            assert items[1..][k] == items[k + 1];
          }
          Err(f)
        case Ok(rest) => Ok([ReplaceAll(u, torchUrl, nginxUrl)] + rest)
  }

  /** A list holding one rehosted URL per entry, in order, is what RehostEach gives. */
  lemma RehostEachAll(items: seq<Json>, torchUrl: string, nginxUrl: string, urls: seq<string>)
    requires forall k | 0 <= k < |items| :: EntryUrl(items[k]).Some?
    requires |urls| == |items|
    requires forall k | 0 <= k < |items| :: urls[k] == ReplaceAll(EntryUrl(items[k]).value, torchUrl, nginxUrl)
    ensures RehostEach(items, torchUrl, nginxUrl) == Ok(urls)
  {
    var r := RehostEach(items, torchUrl, nginxUrl);
    assert r.value == urls;
  }

  /** An entry without a string url makes the whole loop fail. */
  lemma RehostEachFails(items: seq<Json>, torchUrl: string, nginxUrl: string, i: int)
    requires 0 <= i < |items| && EntryUrl(items[i]).None?
    ensures RehostEach(items, torchUrl, nginxUrl) == Err(NoMethod)
  {
  }

  /**
   * `extract_file_url(torch_output)`: the proxy variable is checked first, then
   * the base URL, both before any entry is looked at.
   */
  function RehostedUrls(cfg: Config, output: Json): Result<seq<string>, Fault>
  {
    if cfg.nginxServer.None? then Err(ConfigError(NginxUnset))
    else if cfg.torchBaseUrl.None? then Err(ConfigError(BaseUrlMissing))
    else match Elements(output)
      case None => Err(NotIterable)
      case Some(items) => RehostEach(items, cfg.torchBaseUrl.value, cfg.nginxServer.value)
  }

  /** `extract_file_url(torch_output)`: the configuration checks, then the loop over the entries. */
  method ExtractFileUrl(cfg: Config, torchOutput: Json) returns (r: Result<seq<string>, Fault>)
    ensures r == RehostedUrls(cfg, torchOutput)
  {
    if cfg.nginxServer.None? {
      return Err(ConfigError(NginxUnset));
    }
    if cfg.torchBaseUrl.None? {
      return Err(ConfigError(BaseUrlMissing));
    }
    var elems := Elements(torchOutput);
    if elems.None? {
      return Err(NotIterable);
    }
    r := CollectLocations(elems.value, cfg.torchBaseUrl.value, cfg.nginxServer.value);
  }

  /** The loop of `extract_file_url`, appending to `locations` one entry at a time. */
  method CollectLocations(items: seq<Json>, torchUrl: string, nginxUrl: string) returns (r: Result<seq<string>, Fault>)
    ensures r == RehostEach(items, torchUrl, nginxUrl)
  {
    var locations: seq<string> := [];
    for i := 0 to |items|
      invariant |locations| == i
      invariant forall k | 0 <= k < i :: EntryUrl(items[k]).Some?
      invariant forall k | 0 <= k < i :: locations[k] == ReplaceAll(EntryUrl(items[k]).value, torchUrl, nginxUrl)
    {
      var url := EntryUrl(items[i]);
      if url.None? {
        RehostEachFails(items, torchUrl, nginxUrl, i);
        return Err(NoMethod);
      }
      locations := locations + [ReplaceAll(url.value, torchUrl, nginxUrl)];
    }
    RehostEachAll(items, torchUrl, nginxUrl, locations);
    return Ok(locations);
  }

  /**
   * The configuration checks of `extract_file_url`: a missing proxy URL is
   * reported whatever else holds, a missing base URL only once the proxy URL
   * is set, and with both set no configuration error arises.
   */
  lemma RehostedUrlsConfig(cfg: Config, output: Json)
    ensures cfg.nginxServer.None? ==> RehostedUrls(cfg, output) == Err(ConfigError(NginxUnset))
    ensures cfg.nginxServer.Some? && cfg.torchBaseUrl.None? ==> RehostedUrls(cfg, output) == Err(ConfigError(BaseUrlMissing))
    ensures RehostedUrls(cfg, output).Err? && RehostedUrls(cfg, output).error.ConfigError? <==>
              cfg.nginxServer.None? || cfg.torchBaseUrl.None?
  {
  }

  /** A list of entries gives one URL per entry, in order, each the entry's url with the base URL replaced. */
  lemma RehostedList(cfg: Config, items: seq<Json>)
    requires cfg.nginxServer.Some? && cfg.torchBaseUrl.Some?
    requires forall k | 0 <= k < |items| :: EntryUrl(items[k]).Some?
    ensures RehostedUrls(cfg, JArray(items)).Ok?
    ensures var urls := RehostedUrls(cfg, JArray(items)).value;
      && |urls| == |items|
      && forall k | 0 <= k < |items| ::
           urls[k] == ReplaceAll(EntryUrl(items[k]).value, cfg.torchBaseUrl.value, cfg.nginxServer.value)
  {
  }

  /** When the proxy URL equals the base URL, every reported URL comes back unchanged. */
  lemma RehostSameBase(cfg: Config, items: seq<Json>)
    requires cfg.nginxServer.Some? && cfg.nginxServer == cfg.torchBaseUrl
    requires forall k | 0 <= k < |items| :: EntryUrl(items[k]).Some?
    ensures RehostedUrls(cfg, JArray(items)) == Ok(seq(|items|, k requires 0 <= k < |items| => EntryUrl(items[k]).value))
  {
    var urls := RehostedUrls(cfg, JArray(items)).value;
    forall k | 0 <= k < |items|
      ensures urls[k] == EntryUrl(items[k]).value
    {
      ReplaceSelf(EntryUrl(items[k]).value, cfg.torchBaseUrl.value);
    }
    assert urls == seq(|items|, k requires 0 <= k < |items| => EntryUrl(items[k]).value);
  }

  // ---------------------------------------------------------------------------
  // extract_patient_id

  /** The configuration check made before the download; None when the download may go ahead. */
  function AuthFault(cfg: Config): (r: Option<Fault>)
    ensures r.Some? ==> r.value == ConfigError(CredentialsMissing)
    ensures r.None? <==> cfg.basicAuth.Some? && (cfg.basicAuth.value == "True" ==> cfg.username.Some? && cfg.password.Some?)
  {
    if cfg.basicAuth.None? then Some(ConfigError(CredentialsMissing))
    else if cfg.basicAuth.value == "True" && (cfg.username.None? || cfg.password.None?) then Some(ConfigError(CredentialsMissing))
    else None
  }

  /** `json.loads(line)['id']`: the id of one NDJSON record. */
  function IdOfLine(line: seq<Byte>, loads: seq<Byte> -> Option<Json>): (r: Result<Json, Fault>)
    ensures r.Ok? <==> loads(line).Some? && loads(line).value.JObject? && Lookup(loads(line).value.members, "id").Some?
    ensures r.Ok? ==> r.value == Lookup(loads(line).value.members, "id").value
    ensures loads(line).None? ==> r == Err(MalformedJson)
  {
    match loads(line)
    case None => Err(MalformedJson)
    case Some(data) =>
      if data.JObject? then
        match Lookup(data.members, "id")
        case Some(id) => Ok(id)
        case None => Err(LookupFailed)
      else Err(LookupFailed)
  }

  /** The ids of the non-empty lines, in line order; the first line that fails stops the scan. */
  function IdsOf(lines: seq<seq<Byte>>, loads: seq<Byte> -> Option<Json>): Result<seq<Json>, Fault>
    decreases |lines|
  {
    if lines == [] then Ok([])
    else match IdsOf(lines[..|lines| - 1], loads)
      case Err(f) => Err(f)
      case Ok(ids) =>
        var line := lines[|lines| - 1];
        if line == [] then Ok(ids)
        else match IdOfLine(line, loads)
          case Err(f) => Err(f)
          case Ok(id) => Ok(ids + [id])
  }

  /** The ids of two runs of lines: those of the first followed by those of the second, unless one of them fails, the first failure winning. */
  lemma {:induction false} IdsOfAppend(a: seq<seq<Byte>>, b: seq<seq<Byte>>, loads: seq<Byte> -> Option<Json>)
    ensures IdsOf(a + b, loads) ==
              match IdsOf(a, loads)
              case Err(f) => Err(f)
              case Ok(x) =>
                match IdsOf(b, loads)
                case Err(g) => Err(g)
                case Ok(y) => Ok(x + y)
    decreases |b|
  {
    if b == [] {
      assert a + b == a;
      if IdsOf(a, loads).Ok? {
        assert IdsOf(a, loads).value + [] == IdsOf(a, loads).value;
      }
    } else {
      var b' := b[..|b| - 1];
      assert (a + b)[..|a + b| - 1] == a + b';
      assert (a + b)[|a + b| - 1] == b[|b| - 1];
      IdsOfAppend(a, b', loads);
      match IdsOf(a, loads)
      case Err(f) =>
      case Ok(x) =>
        match IdsOf(b', loads)
        case Err(g) =>
        case Ok(y) =>
          var line := b[|b| - 1];
          if line != [] && IdOfLine(line, loads).Ok? {
            assert x + (y + [IdOfLine(line, loads).value]) == x + y + [IdOfLine(line, loads).value];
          }
    }
  }

  /** An empty line contributes nothing: it is skipped wherever it stands. */
  lemma EmptyLineSkipped(a: seq<seq<Byte>>, b: seq<seq<Byte>>, loads: seq<Byte> -> Option<Json>)
    ensures IdsOf(a + [[]] + b, loads) == IdsOf(a + b, loads)
  {
    IdsOfAppend(a + [[]], b, loads);
    IdsOfAppend(a, b, loads);
    assert (a + [[]])[..|a + [[]]| - 1] == a;
  }

  /**
   * Over lines that are all non-empty, the scan succeeds exactly when every
   * line yields an id, and then gives one id per line, in line order.
   */
  lemma {:induction false} IdsOfNonEmpty(lines: seq<seq<Byte>>, loads: seq<Byte> -> Option<Json>)
    requires forall k | 0 <= k < |lines| :: lines[k] != []
    ensures IdsOf(lines, loads).Ok? <==> forall k | 0 <= k < |lines| :: IdOfLine(lines[k], loads).Ok?
    ensures IdsOf(lines, loads).Ok? ==>
              |IdsOf(lines, loads).value| == |lines| &&
              forall k | 0 <= k < |lines| :: IdsOf(lines, loads).value[k] == IdOfLine(lines[k], loads).value
    decreases |lines|
  {
    if lines != [] {
      var init := lines[..|lines| - 1];
      IdsOfNonEmpty(init, loads);
      assert forall k | 0 <= k < |init| :: init[k] == lines[k];
    }
  }

  /**
   * `extract_patient_id(url)` with the download `fetch` and the parser
   * `loads`: a configuration error before any download; None for a status
   * other than 200; otherwise the ids of the file's non-empty lines.
   */
  function PatientIds(cfg: Config, url: string, fetch: string -> NdjsonResponse, loads: seq<Byte> -> Option<Json>): Result<Option<seq<Json>>, Fault>
  {
    match AuthFault(cfg)
    case Some(f) => Err(f)
    case None =>
      var response := fetch(url);
      if response.status != 200 then Ok(None)
      else match IdsOf(response.lines, loads)
        case Err(f) => Err(f)
        case Ok(ids) => Ok(Some(ids))
  }

  /** The download and the loop of `extract_patient_id`, appending to `uuid` one line at a time. */
  method ExtractPatientId(cfg: Config, url: string, fetch: string -> NdjsonResponse, loads: seq<Byte> -> Option<Json>)
    returns (r: Result<Option<seq<Json>>, Fault>)
    ensures r == PatientIds(cfg, url, fetch, loads)
  {
    if cfg.basicAuth.None? {
      return Err(ConfigError(CredentialsMissing));
    }
    if cfg.basicAuth.value == "True" && (cfg.username.None? || cfg.password.None?) {
      return Err(ConfigError(CredentialsMissing));
    }
    var response := fetch(url);
    if response.status != 200 {
      return Ok(None);
    }
    var ids := CollectIds(response.lines, loads);
    return if ids.Ok? then Ok(Some(ids.value)) else Err(ids.error);
  }

  /** The loop of `extract_patient_id` over the lines, appending to `uuid` one id at a time. */
  method CollectIds(lines: seq<seq<Byte>>, loads: seq<Byte> -> Option<Json>) returns (r: Result<seq<Json>, Fault>)
    ensures r == IdsOf(lines, loads)
  {
    var uuid: seq<Json> := [];
    for i := 0 to |lines|
      invariant IdsOf(lines[..i], loads) == Ok(uuid)
    {
      assert lines[..i + 1][..i] == lines[..i];
      if lines[i] != [] {
        var data := IdOfLine(lines[i], loads);
        if data.Err? {
          IdsOfAppend(lines[..i + 1], lines[i + 1..], loads);
          assert lines[..i + 1] + lines[i + 1..] == lines;
          return Err(data.error);
        }
        uuid := uuid + [data.value];
      }
    }
    assert lines[..|lines|] == lines;
    return Ok(uuid);
  }

  /**
   * A configuration error arises exactly when the auth flag is unset, or is
   * "True" with a user name or password unset; it is reported whatever the
   * download would have given.
   */
  lemma PatientIdsConfig(cfg: Config, url: string, fetch: string -> NdjsonResponse, fetch': string -> NdjsonResponse, loads: seq<Byte> -> Option<Json>)
    ensures (PatientIds(cfg, url, fetch, loads).Err? && PatientIds(cfg, url, fetch, loads).error.ConfigError?) <==>
              cfg.basicAuth.None? || (cfg.basicAuth == Some("True") && (cfg.username.None? || cfg.password.None?))
    ensures AuthFault(cfg).Some? ==>
              PatientIds(cfg, url, fetch, loads) == PatientIds(cfg, url, fetch', loads) == Err(ConfigError(CredentialsMissing))
  {
    match AuthFault(cfg)
    case Some(f) =>
    case None =>
      var response := fetch(url);
      if response.status == 200 && IdsOf(response.lines, loads).Err? {
        IdsOfErrNotConfig(response.lines, loads);
      }
  }

  lemma {:induction false} IdsOfErrNotConfig(lines: seq<seq<Byte>>, loads: seq<Byte> -> Option<Json>)
    ensures IdsOf(lines, loads).Err? ==> IdsOf(lines, loads).error == MalformedJson || IdsOf(lines, loads).error == LookupFailed
    decreases |lines|
  {
    if lines != [] {
      IdsOfErrNotConfig(lines[..|lines| - 1], loads);
    }
  }

  /** None, and never an empty list, is the answer exactly for a download whose status is not 200. */
  lemma PatientIdsNone(cfg: Config, url: string, fetch: string -> NdjsonResponse, loads: seq<Byte> -> Option<Json>)
    ensures PatientIds(cfg, url, fetch, loads) == Ok(None) <==> AuthFault(cfg).None? && fetch(url).status != 200
    ensures AuthFault(cfg).None? && fetch(url).status == 200 ==>
              PatientIds(cfg, url, fetch, loads) == (match IdsOf(fetch(url).lines, loads) case Err(f) => Err(f) case Ok(ids) => Ok(Some(ids)))
  {
  }

  // ---------------------------------------------------------------------------
  // create_torch_request

  /** Only with the auth flag exactly "True" does the POST carry the request body; otherwise it is sent without one. */
  function PostedBody(cfg: Config, payload: Json): (r: Option<Json>)
    ensures r.Some? <==> cfg.basicAuth == Some("True")
    ensures r.Some? ==> r.value == payload
  {
    if cfg.basicAuth == Some("True") then Some(payload) else None
  }

  /** The POST `create_torch_request` sends; None where building its URL raises because TORCH_BASE_URL is unset. */
  function SubmitRequest(cfg: Config, payload: Json): (r: Option<Request>)
    ensures r.Some? <==> cfg.torchBaseUrl.Some?
    ensures r.Some? ==> r.value.url == cfg.torchBaseUrl.value + "/fhir/$extract-data" && r.value.body == PostedBody(cfg, payload)
  {
    match cfg.torchBaseUrl
    case None => None
    case Some(base) => Some(Request(base + "/fhir/$extract-data", PostedBody(cfg, payload)))
  }

  /**
   * The classification of TORCH's answer to the extraction request: for 200,
   * 201 and 202 the Content-Location header with the status prefix removed,
   * for any other status the status itself.
   */
  function SubmissionOf(response: HttpResponse): Result<Submission, Fault>
  {
    if response.status == 200 || response.status == 201 || response.status == 202 then
      if "content-location" in response.headers then
        Ok(Location(ReplaceAll(response.headers["content-location"], StatusPrefix, "")))
      else Err(LookupFailed)
    else Ok(StatusCode(response.status))
  }

  /** A status code is passed on exactly for the statuses other than 200, 201 and 202, and it is the status itself. */
  lemma SubmissionStatus(response: HttpResponse)
    ensures (SubmissionOf(response).Ok? && SubmissionOf(response).value.StatusCode?) <==> response.status !in {200, 201, 202}
    ensures SubmissionOf(response).Ok? && SubmissionOf(response).value.StatusCode? ==> SubmissionOf(response).value.code == response.status
    ensures SubmissionOf(response).Err? <==> response.status in {200, 201, 202} && "content-location" !in response.headers
  {
  }

  /**
   * For an accepted request whose Content-Location is the status prefix
   * followed by a job id, the location is that job id: the inverse of the
   * status URL a poll builds from it.
   */
  lemma SubmissionLocation(response: HttpResponse, id: string)
    requires response.status in {200, 201, 202}
    requires "content-location" in response.headers && response.headers["content-location"] == StatusPrefix + id
    requires !Occurs(id, StatusPrefix)
    ensures SubmissionOf(response) == Ok(Location(id))
  {
    ReplaceLeading(StatusPrefix, id, "");
    assert "" + id == id;
  }

  /** A Content-Location without the status prefix is passed on unchanged, and removing the prefix never lengthens it. */
  lemma SubmissionLocationPlain(response: HttpResponse)
    requires response.status in {200, 201, 202} && "content-location" in response.headers
    ensures SubmissionOf(response).Ok? && SubmissionOf(response).value.Location?
    ensures |SubmissionOf(response).value.id| <= |response.headers["content-location"]|
    ensures !Occurs(response.headers["content-location"], StatusPrefix) ==>
              SubmissionOf(response) == Ok(Location(response.headers["content-location"]))
  {
    var h := response.headers["content-location"];
    ReplaceLength(h, StatusPrefix, "");
    if !Occurs(h, StatusPrefix) {
      ReplaceAbsent(h, StatusPrefix, "");
    }
  }

  /** The outcome of `create_torch_request(payload)` when TORCH answers a POST with `respond`. */
  function SubmitResult(cfg: Config, payload: Json, respond: Request -> HttpResponse): Result<Submission, Fault>
  {
    match SubmitRequest(cfg, payload)
    case None => Err(BaseUrlUnset)
    case Some(request) => SubmissionOf(respond(request))
  }

  /** The TORCH `$extract-data` endpoint, as the bridge sees it: it answers each POST with `respond` and keeps the POSTs it received. */
  class ExtractionService {
    var received: seq<Request>
    const respond: Request -> HttpResponse

    constructor (respond: Request -> HttpResponse)
      ensures received == [] && this.respond == respond
    {
      received := [];
      this.respond := respond;
    }

    method Post(request: Request) returns (response: HttpResponse)
      modifies this
      ensures received == old(received) + [request]
      ensures response == respond(request)
    {
      received := received + [request];
      response := respond(request);
    }
  }

  /**
   * The one POST `create_torch_request` makes goes to the `$extract-data`
   * endpoint under the base URL and carries the payload exactly when the auth
   * flag is "True"; its answer decides the result. Without a base URL no POST
   * is built and the result is the TypeError.
   */
  lemma SubmitPost(cfg: Config, payload: Json, respond: Request -> HttpResponse)
    ensures SubmitResult(cfg, payload, respond) == Err(BaseUrlUnset) <==> cfg.torchBaseUrl.None?
    ensures cfg.torchBaseUrl.Some? ==>
              var request := SubmitRequest(cfg, payload).value;
              && request.url == cfg.torchBaseUrl.value + "/fhir/$extract-data"
              && (request.body == Some(payload) <==> cfg.basicAuth == Some("True"))
              && (request.body.None? <==> cfg.basicAuth != Some("True"))
              && SubmitResult(cfg, payload, respond) == SubmissionOf(respond(request))
  {
    if cfg.torchBaseUrl.Some? {
      SubmissionStatus(respond(SubmitRequest(cfg, payload).value));
    }
  }

  /** `create_torch_request(payload)`: at most one POST, none when the base URL is unset. */
  method CreateTorchRequest(cfg: Config, payload: Json, service: ExtractionService) returns (r: Result<Submission, Fault>)
    modifies service
    ensures r == SubmitResult(cfg, payload, service.respond)
    ensures service.received == old(service.received) + (if cfg.torchBaseUrl.Some? then [SubmitRequest(cfg, payload).value] else [])
    ensures cfg.torchBaseUrl.Some? ==>
              var request := service.received[|service.received| - 1];
              && request.url == cfg.torchBaseUrl.value + "/fhir/$extract-data"
              && (request.body == Some(payload) <==> cfg.basicAuth == Some("True"))
              && (request.body.None? <==> cfg.basicAuth != Some("True"))
              && r == SubmissionOf(service.respond(request))
  {
    if cfg.torchBaseUrl.None? {
      return Err(BaseUrlUnset);
    }
    var request := Request(cfg.torchBaseUrl.value + "/fhir/$extract-data", PostedBody(cfg, payload));
    var response := service.Post(request);
    r := SubmissionOf(response);
  }

  // ---------------------------------------------------------------------------
  // extract_location

  /** The payload of a poll whose job is still running. */
  const ProcessingInfo := JObject([("output", JString("request still processing on torch side"))])

  /** The payload of a poll answered with an error status. */
  function ErrorInfo(status: nat): Json
  {
    JObject([("error code", JString(Decimal(status)))])
  }

  /** The URL polled for the job at `location`. */
  function StatusUrl(base: string, location: string): string
  {
    base + StatusPrefix + location
  }

  /**
   * `extract_location(location)` when TORCH answers a GET with `poll`: the
   * rehosted file URLs for 200, the processing payload for 202, the status
   * as an error code for any other status above 200, and nothing (None)
   * below 200.
   */
  function ExtractLocation(cfg: Config, location: string, poll: string -> HttpResponse): Result<Option<Poll>, Fault>
  {
    match cfg.torchBaseUrl
    case None => Err(BaseUrlUnset)
    case Some(base) =>
      var response := poll(StatusUrl(base, location));
      if response.status == 200 then
        match response.body
        case None => Err(MalformedJson)
        case Some(body) =>
          match Get(body, Key("output"))
          case None => Err(LookupFailed)
          case Some(output) =>
            match RehostedUrls(cfg, output)
            case Err(f) => Err(f)
            case Ok(urls) => Ok(Some(Done(urls)))
      else if response.status == 202 then Ok(Some(NotDone(ProcessingInfo)))
      else if response.status > 200 then Ok(Some(NotDone(ErrorInfo(response.status))))
      else Ok(None)
  }

  /**
   * The four outcomes of a poll by status: done only for 200 (with the
   * rehosted `output` of the body), the processing payload exactly for 202,
   * an error code that reads back as the status for the other statuses
   * above 200, and None exactly below 200.
   */
  lemma PollOutcome(cfg: Config, location: string, poll: string -> HttpResponse)
    requires cfg.torchBaseUrl.Some?
    ensures var status := poll(StatusUrl(cfg.torchBaseUrl.value, location)).status;
      var r := ExtractLocation(cfg, location, poll);
      && (r.Ok? && r.value.Some? && r.value.value.Done? ==> status == 200)
      && (r == Ok(Some(NotDone(ProcessingInfo))) <==> status == 202)
      && (r == Ok(None) <==> status < 200)
      && (status > 200 && status != 202 ==>
            r.Ok? && r.value.Some? && r.value.value.NotDone? &&
            GetPath(r.value.value.info, [Key("error code")]).Some? &&
            GetPath(r.value.value.info, [Key("error code")]).value.JString? &&
            IsDigits(GetPath(r.value.value.info, [Key("error code")]).value.s) &&
            DecimalValue(GetPath(r.value.value.info, [Key("error code")]).value.s) == status)
  {
    var status := poll(StatusUrl(cfg.torchBaseUrl.value, location)).status;
    if status > 200 && status != 202 {
      DecimalRoundTrip(status);
      assert ErrorInfo(status) != ProcessingInfo by {
        assert Decimal(status)[0] != "request still processing on torch side"[0];
      }
    }
  }

  /** A finished poll reports exactly the rehosted `output` list of the body. */
  lemma PollDone(cfg: Config, location: string, poll: string -> HttpResponse, output: Json)
    requires cfg.torchBaseUrl.Some?
    requires var response := poll(StatusUrl(cfg.torchBaseUrl.value, location));
      response.status == 200 && response.body.Some? && Get(response.body.value, Key("output")) == Some(output)
    ensures ExtractLocation(cfg, location, poll) ==
              match RehostedUrls(cfg, output) case Err(f) => Err(f) case Ok(urls) => Ok(Some(Done(urls)))
  {
  }

  // ---------------------------------------------------------------------------
  // query_to_base64

  /**
   * `query_to_base64(query)` with `dumps` the UTF-8 bytes of `json.dumps`: the
   * base64 text of those bytes, four characters per started group of three,
   * which decodes back to them.
   */
  function QueryToBase64(dumps: Json -> seq<Byte>, query: Json): (r: string)
    ensures |r| == 4 * ((|dumps(query)| + 2) / 3)
    ensures Base64.Decode(r) == Some(dumps(query))
    ensures forall i | 0 <= i < |r| :: r[i] == '=' || Base64.IsAlphabet(r[i])
    ensures forall i | 0 <= i < |r| :: r[i] == '=' <==> i >= |r| - Base64.Padding(|dumps(query)|)
  {
    var bytes := dumps(query);
    Base64.DecodeEncode(bytes);
    Base64.EncodeAlphabet(bytes);
    Base64.Encode(bytes)
  }
}
