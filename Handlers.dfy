/**
 * The two HTTP handlers of the bridge. `push_json` fills the query and
 * request templates in place and submits the extraction request once the
 * payload passes schema validation; `get_uuids` polls a submitted job and,
 * once it is done, gathers the patient ids of every result file in order.
 *
 * The JSON templates arrive as documents (null where loading failed), the
 * schema validator is a function the caller passes in, and TORCH is an
 * ExtractionService for the POST and functions from URL to response for the
 * GETs.
 */
module Handlers {
  import opened Wrappers
  import opened Json
  import opened TorchRequests

  /** What the schema validator says about a payload and a schema. */
  datatype Verdict =
    | Conforms
    | Violation(message: string)  // ValidationError, with its message
    | SchemaUnusable              // the schema itself cannot be used

  /** How a handler ends: a value served with status 200, an HTTPException, or an exception the framework turns into 500. */
  datatype Reply<T> = Served(value: T) | ClientError(status: int, detail: string) | ServerError(fault: Fault)

  /** What `get_uuids` serves: the collected ids of a finished job, or the poll's payload. */
  datatype Answer = Identifiers(ids: seq<Json>) | Pending(payload: Json)

  /** `["dataExtraction"]["attributeGroups"][0]["groupReference"]` in the query template. */
  const GroupReferencePath := [Key("dataExtraction"), Key("attributeGroups"), Index(0), Key("groupReference")]

  /** `["cohortDefinition"]` in the query template. */
  const CohortPath := [Key("cohortDefinition")]

  /** `["parameter"][0]["valueBase64Binary"]` in the request template. */
  const ParameterPath := [Key("parameter"), Index(0), Key("valueBase64Binary")]

  /**
   * `validate(instance=data, schema=schema)` with `validate` the schema
   * validator: a schema that could not be loaded is None, which the validator
   * rejects before looking at the payload.
   */
  function Validation(validate: (Json, Json) -> Verdict, schema: Option<Json>, data: Json): (v: Verdict)
    ensures schema.None? ==> v == SchemaUnusable
    ensures schema.Some? ==> v == validate(schema.value, data)
  {
    match schema
    case None => SchemaUnusable
    case Some(s) => validate(s, data)
  }

  /** The value FDPG_GROUP_REFERENCE puts into the query: its text, or null when it is unset. */
  function GroupReference(cfg: Config): (r: Json)
    ensures r.JNull? <==> cfg.groupReference.None?
    ensures cfg.groupReference.Some? ==> r == JString(cfg.groupReference.value)
  {
    match cfg.groupReference
    case None => JNull
    case Some(s) => JString(s)
  }

  function ReplyOf<T>(r: Result<T, Fault>): Reply<T>
  {
    match r
    case Ok(v) => Served(v)
    case Err(f) => ServerError(f)
  }

  // ---------------------------------------------------------------------------
  // push_json

  /** What one call of `push_json` does: its reply, the two templates as they end up, and the POST it sends, if any. */
  datatype PushTrace = PushTrace(reply: Reply<Submission>, query: Option<Json>, request: Option<Json>, post: Option<Request>)

  /**
   * `push_json(data)` step by step, in the handler's order: write the group
   * reference, validate, then go on as Complete says. `query` and `request`
   * are the templates as loaded.
   */
  function PushOutcome(cfg: Config, data: Json, schema: Option<Json>, query: Option<Json>, request: Option<Json>,
                       dumps: Json -> seq<Byte>, validate: (Json, Json) -> Verdict,
                       respond: Request -> HttpResponse): PushTrace
  {
    match query
    case None => PushTrace(ServerError(TemplateMissing), None, request, None)
    case Some(q0) =>
      match SetPath(q0, GroupReferencePath, GroupReference(cfg))
      case None => PushTrace(ServerError(LookupFailed), query, request, None)
      case Some(q1) =>
        match Validation(validate, schema, data)
        case SchemaUnusable => PushTrace(ServerError(SchemaRejected), Some(q1), request, None)
        case Violation(message) => PushTrace(ClientError(400, "Invalid JSON: " + message), Some(q1), request, None)
        case Conforms => Complete(cfg, data, q1, request, dumps, respond)
  }

  /**
   * The steps of `push_json` after a successful validation, from the query
   * `q1` that already holds the group reference: write the cohort, encode the
   * query, write the parameter, submit. Only these steps can post, and none
   * of them ends in a client error.
   */
  function Complete(cfg: Config, data: Json, q1: Json, request: Option<Json>,
                    dumps: Json -> seq<Byte>, respond: Request -> HttpResponse): (t: PushTrace)
    ensures !t.reply.ClientError?
    ensures t.query.Some?
    ensures request.None? ==> t.request.None?
  {
    match SetPath(q1, CohortPath, data)
    case None => PushTrace(ServerError(LookupFailed), Some(q1), request, None)
    case Some(q2) =>
      var encoded := QueryToBase64(dumps, q2);
      match request
      case None => PushTrace(ServerError(TemplateMissing), Some(q2), None, None)
      case Some(r0) =>
        match SetPath(r0, ParameterPath, JString(encoded))
        case None => PushTrace(ServerError(LookupFailed), Some(q2), request, None)
        case Some(r1) =>
          match SubmitRequest(cfg, r1)
          case None => PushTrace(ServerError(BaseUrlUnset), Some(q2), Some(r1), None)
          case Some(post) => PushTrace(ReplyOf(SubmissionOf(respond(post))), Some(q2), Some(r1), Some(post))
  }

  /** A template document's content, None for a template that could not be loaded. */
  function Loaded(doc: JsonDocument?): Option<Json>
    reads doc
  {
    if doc == null then None else Some(doc.root)
  }

  /** `push_json(data)`, editing the two freshly loaded templates in place and posting to TORCH. */
  method PushJson(cfg: Config, data: Json, schema: Option<Json>, queryDoc: JsonDocument?, requestDoc: JsonDocument?,
                  dumps: Json -> seq<Byte>, validate: (Json, Json) -> Verdict, service: ExtractionService)
    returns (reply: Reply<Submission>)
    requires queryDoc == null || queryDoc != requestDoc
    modifies queryDoc, requestDoc, service
    ensures var t := PushOutcome(cfg, data, schema, old(Loaded(queryDoc)), old(Loaded(requestDoc)), dumps, validate, service.respond);
      && reply == t.reply
      && Loaded(queryDoc) == t.query
      && Loaded(requestDoc) == t.request
      && service.received == old(service.received) + (if t.post.Some? then [t.post.value] else [])
  {
    if queryDoc == null {
      return ServerError(TemplateMissing);
    }
    var ok := queryDoc.Assign(GroupReferencePath, GroupReference(cfg));
    if !ok {
      return ServerError(LookupFailed);
    }
    var verdict := Validation(validate, schema, data);
    match verdict {
      case SchemaUnusable =>
        return ServerError(SchemaRejected);
      case Violation(message) =>
        return ClientError(400, "Invalid JSON: " + message);
      case Conforms =>
        reply := PushValidated(cfg, data, queryDoc, requestDoc, dumps, service);
    }
  }

  /** The second half of `push_json`, once the payload has passed validation: the steps Complete describes. */
  method PushValidated(cfg: Config, data: Json, queryDoc: JsonDocument, requestDoc: JsonDocument?,
                       dumps: Json -> seq<Byte>, service: ExtractionService)
    returns (reply: Reply<Submission>)
    requires queryDoc != requestDoc
    modifies queryDoc, requestDoc, service
    ensures var t := Complete(cfg, data, old(queryDoc.root), old(Loaded(requestDoc)), dumps, service.respond);
      && reply == t.reply
      && Loaded(queryDoc) == t.query
      && Loaded(requestDoc) == t.request
      && service.received == old(service.received) + (if t.post.Some? then [t.post.value] else [])
  {
    var ok := queryDoc.Assign(CohortPath, data);
    if !ok {
      return ServerError(LookupFailed);
    }
    var encoded := QueryToBase64(dumps, queryDoc.root);
    if requestDoc == null {
      return ServerError(TemplateMissing);
    }
    ok := requestDoc.Assign(ParameterPath, JString(encoded));
    if !ok {
      return ServerError(LookupFailed);
    }
    var submission := CreateTorchRequest(cfg, requestDoc.root, service);
    reply := ReplyOf(submission);
  }

  /**
   * A payload the schema rejects ends in status 400 with the validator's
   * message, and no extraction request is sent; this is the only way a
   * client error arises.
   */
  lemma PushRejected(cfg: Config, data: Json, schema: Option<Json>, query: Option<Json>, request: Option<Json>,
                     dumps: Json -> seq<Byte>, validate: (Json, Json) -> Verdict, respond: Request -> HttpResponse)
    ensures var t := PushOutcome(cfg, data, schema, query, request, dumps, validate, respond);
      && (t.reply.ClientError? <==>
            query.Some? && SetPath(query.value, GroupReferencePath, GroupReference(cfg)).Some? && Validation(validate, schema, data).Violation?)
      && (t.reply.ClientError? ==> t.reply == ClientError(400, "Invalid JSON: " + Validation(validate, schema, data).message) && t.post.None?)
  {
  }

  /** An extraction request is sent only for a payload the schema accepts. */
  lemma PushPostsOnlyValid(cfg: Config, data: Json, schema: Option<Json>, query: Option<Json>, request: Option<Json>,
                           dumps: Json -> seq<Byte>, validate: (Json, Json) -> Verdict, respond: Request -> HttpResponse)
    ensures PushOutcome(cfg, data, schema, query, request, dumps, validate, respond).post.Some? ==>
              schema.Some? && validate(schema.value, data) == Conforms
  {
  }

  /** The cohort slot and the group reference slot of the query template lie apart. */
  lemma CohortApartFromGroup()
    ensures Apart(CohortPath, GroupReferencePath)
  {
    assert CohortPath[..0] == GroupReferencePath[..0] && CohortPath[0] != GroupReferencePath[0];
  }

  /**
   * When the request is sent, the query carries the payload verbatim as its
   * cohort definition and the configured group reference; the request's
   * parameter is the base64 text of that final query, which decodes to its
   * serialisation; the POST goes to the extraction endpoint with the body the
   * auth flag calls for; and the handler answers with what the submission gives.
   */
  lemma PushAssembled(cfg: Config, data: Json, schema: Option<Json>, query: Option<Json>, request: Option<Json>,
                      dumps: Json -> seq<Byte>, validate: (Json, Json) -> Verdict, respond: Request -> HttpResponse)
    requires PushOutcome(cfg, data, schema, query, request, dumps, validate, respond).post.Some?
    ensures var t := PushOutcome(cfg, data, schema, query, request, dumps, validate, respond);
      && t.query.Some? && t.request.Some? && cfg.torchBaseUrl.Some?
      && GetPath(t.query.value, CohortPath) == Some(data)
      && GetPath(t.query.value, GroupReferencePath) == Some(GroupReference(cfg))
      && GetPath(t.request.value, ParameterPath) == Some(JString(QueryToBase64(dumps, t.query.value)))
      && Base64.Decode(QueryToBase64(dumps, t.query.value)) == Some(dumps(t.query.value))
      && t.post.value == Request(cfg.torchBaseUrl.value + "/fhir/$extract-data", PostedBody(cfg, t.request.value))
      && t.reply == ReplyOf(SubmissionOf(respond(t.post.value)))
  {
    var t := PushOutcome(cfg, data, schema, query, request, dumps, validate, respond);
    var g := GroupReference(cfg);
    assert query.Some? && SetPath(query.value, GroupReferencePath, g).Some?;
    var q1 := SetPath(query.value, GroupReferencePath, g).value;
    assert Validation(validate, schema, data) == Conforms;
    assert t == Complete(cfg, data, q1, request, dumps, respond);
    GetAfterSetPath(query.value, GroupReferencePath, g);
    CompleteAssembled(cfg, data, q1, request, dumps, respond);
  }

  /**
   * When the steps after validation post, the query holds the payload as its
   * cohort definition and keeps its group reference, and the request holds the
   * base64 text of the final query as its parameter.
   */
  lemma CompleteAssembled(cfg: Config, data: Json, q1: Json, request: Option<Json>,
                          dumps: Json -> seq<Byte>, respond: Request -> HttpResponse)
    requires Complete(cfg, data, q1, request, dumps, respond).post.Some?
    ensures var t := Complete(cfg, data, q1, request, dumps, respond);
      && t.request.Some? && cfg.torchBaseUrl.Some?
      && GetPath(t.query.value, CohortPath) == Some(data)
      && GetPath(t.query.value, GroupReferencePath) == GetPath(q1, GroupReferencePath)
      && GetPath(t.request.value, ParameterPath) == Some(JString(QueryToBase64(dumps, t.query.value)))
      && t.post.value == Request(cfg.torchBaseUrl.value + "/fhir/$extract-data", PostedBody(cfg, t.request.value))
      && t.reply == ReplyOf(SubmissionOf(respond(t.post.value)))
  {
    var t := Complete(cfg, data, q1, request, dumps, respond);
    assert SetPath(q1, CohortPath, data).Some? && request.Some?;
    var q2 := SetPath(q1, CohortPath, data).value;
    var v := JString(QueryToBase64(dumps, q2));
    assert SetPath(request.value, ParameterPath, v).Some?;
    var r1 := SetPath(request.value, ParameterPath, v).value;
    assert t.query == Some(q2) && t.request == Some(r1) && t.post == SubmitRequest(cfg, r1);
    GetAfterSetPath(q1, CohortPath, data);
    GetAfterSetPath(request.value, ParameterPath, v);
    CohortApartFromGroup();
    SetPathFrame(q1, CohortPath, data, GroupReferencePath);
  }

  /** The steps after validation leave the query apart from the cohort definition, and the request apart from the parameter, as they were. */
  lemma CompleteFrame(cfg: Config, data: Json, q1: Json, request: Option<Json>,
                      dumps: Json -> seq<Byte>, respond: Request -> HttpResponse, p: seq<Step>)
    ensures var t := Complete(cfg, data, q1, request, dumps, respond);
      && (Apart(CohortPath, p) ==> GetPath(t.query.value, p) == GetPath(q1, p))
      && (request.Some? && t.request.Some? && Apart(ParameterPath, p) ==> GetPath(t.request.value, p) == GetPath(request.value, p))
  {
    match SetPath(q1, CohortPath, data)
    case None =>
    case Some(q2) =>
      if Apart(CohortPath, p) {
        SetPathFrame(q1, CohortPath, data, p);
      }
      if request.Some? {
        var v := JString(QueryToBase64(dumps, q2));
        if SetPath(request.value, ParameterPath, v).Some? && Apart(ParameterPath, p) {
          SetPathFrame(request.value, ParameterPath, v, p);
        }
      }
  }

  /**
   * Apart from the three written slots both templates stay as loaded: every
   * place of the query apart from the group reference and the cohort
   * definition, and every place of the request apart from the parameter.
   */
  lemma PushFrame(cfg: Config, data: Json, schema: Option<Json>, query: Option<Json>, request: Option<Json>,
                  dumps: Json -> seq<Byte>, validate: (Json, Json) -> Verdict, respond: Request -> HttpResponse,
                  p: seq<Step>)
    requires query.Some?
    ensures var t := PushOutcome(cfg, data, schema, query, request, dumps, validate, respond);
      && (t.query.Some? && Apart(GroupReferencePath, p) && Apart(CohortPath, p) ==> GetPath(t.query.value, p) == GetPath(query.value, p))
      && (request.Some? && t.request.Some? && Apart(ParameterPath, p) ==> GetPath(t.request.value, p) == GetPath(request.value, p))
  {
    var t := PushOutcome(cfg, data, schema, query, request, dumps, validate, respond);
    var g := GroupReference(cfg);
    match SetPath(query.value, GroupReferencePath, g)
    case None =>
      assert t.query == query && t.request == request;
    case Some(q1) =>
      if Apart(GroupReferencePath, p) {
        SetPathFrame(query.value, GroupReferencePath, g, p);
      }
      if Validation(validate, schema, data) == Conforms {
        assert t == Complete(cfg, data, q1, request, dumps, respond);
        CompleteFrame(cfg, data, q1, request, dumps, respond, p);
      } else {
        assert t.query == Some(q1) && t.request == request;
      }
  }

  // ---------------------------------------------------------------------------
  // get_uuids

  /**
   * The loop of `get_uuids` over the file URLs: each file's ids extend the
   * list in URL order; an exception stops it, and so does a file that gives
   * None, since a list cannot be extended by None.
   */
  function CollectAll(cfg: Config, urls: seq<string>, fetch: string -> NdjsonResponse, loads: seq<Byte> -> Option<Json>): Result<seq<Json>, Fault>
    decreases |urls|
  {
    if urls == [] then Ok([])
    else match CollectAll(cfg, urls[..|urls| - 1], fetch, loads)
      case Err(f) => Err(f)
      case Ok(acc) =>
        match PatientIds(cfg, urls[|urls| - 1], fetch, loads)
        case Err(f) => Err(f)
        case Ok(None) => Err(NotIterable)
        case Ok(Some(ids)) => Ok(acc + ids)
  }

  /** The ids of two runs of URLs: those of the first followed by those of the second, the first failure winning. */
  lemma {:induction false} CollectAllAppend(cfg: Config, a: seq<string>, b: seq<string>, fetch: string -> NdjsonResponse, loads: seq<Byte> -> Option<Json>)
    ensures CollectAll(cfg, a + b, fetch, loads) ==
              match CollectAll(cfg, a, fetch, loads)
              case Err(f) => Err(f)
              case Ok(x) =>
                match CollectAll(cfg, b, fetch, loads)
                case Err(g) => Err(g)
                case Ok(y) => Ok(x + y)
    decreases |b|
  {
    if b == [] {
      assert a + b == a;
      if CollectAll(cfg, a, fetch, loads).Ok? {
        assert CollectAll(cfg, a, fetch, loads).value + [] == CollectAll(cfg, a, fetch, loads).value;
      }
    } else {
      var b' := b[..|b| - 1];
      assert (a + b)[..|a + b| - 1] == a + b';
      assert (a + b)[|a + b| - 1] == b[|b| - 1];
      CollectAllAppend(cfg, a, b', fetch, loads);
      match CollectAll(cfg, a, fetch, loads)
      case Err(f) =>
      case Ok(x) =>
        match CollectAll(cfg, b', fetch, loads)
        case Err(g) =>
        case Ok(y) =>
          var last := PatientIds(cfg, b[|b| - 1], fetch, loads);
          if last.Ok? && last.value.Some? {
            assert x + (y + last.value.value) == x + y + last.value.value;
          }
    }
  }

  /** The ids a file contributes when it is read successfully, none otherwise. */
  function FileIds(cfg: Config, url: string, fetch: string -> NdjsonResponse, loads: seq<Byte> -> Option<Json>): seq<Json>
  {
    match PatientIds(cfg, url, fetch, loads)
    case Ok(Some(ids)) => ids
    case _ => []
  }

  /** The lists of a sequence of lists, one after the other. */
  function Concat(lists: seq<seq<Json>>): seq<Json>
  {
    if lists == [] then [] else Concat(lists[..|lists| - 1]) + lists[|lists| - 1]
  }

  /**
   * Gathering succeeds exactly when every file is read with status 200 and
   * parses; a file that gives None is never skipped silently. On success the
   * ids are the concatenation of the files' id lists in URL order.
   */
  lemma {:induction false} CollectAllFiles(cfg: Config, urls: seq<string>, fetch: string -> NdjsonResponse, loads: seq<Byte> -> Option<Json>)
    ensures CollectAll(cfg, urls, fetch, loads).Ok? <==>
              forall k | 0 <= k < |urls| :: PatientIds(cfg, urls[k], fetch, loads).Ok? && PatientIds(cfg, urls[k], fetch, loads).value.Some?
    ensures CollectAll(cfg, urls, fetch, loads).Ok? ==>
              CollectAll(cfg, urls, fetch, loads).value == Concat(seq(|urls|, k requires 0 <= k < |urls| => FileIds(cfg, urls[k], fetch, loads)))
    decreases |urls|
  {
    if urls != [] {
      var init := urls[..|urls| - 1];
      CollectAllFiles(cfg, init, fetch, loads);
      assert forall k | 0 <= k < |init| :: init[k] == urls[k];
      var lists := seq(|urls|, k requires 0 <= k < |urls| => FileIds(cfg, urls[k], fetch, loads));
      assert lists[..|lists| - 1] == seq(|init|, k requires 0 <= k < |init| => FileIds(cfg, init[k], fetch, loads));
    }
  }

  /**
   * `get_uuids(location)`: poll the job; when it is done, gather the ids of
   * every result file; otherwise serve the poll's payload as it is.
   */
  function Uuids(cfg: Config, location: string, poll: string -> HttpResponse,
                 fetch: string -> NdjsonResponse, loads: seq<Byte> -> Option<Json>): Reply<Answer>
  {
    match ExtractLocation(cfg, location, poll)
    case Err(f) => ServerError(f)
    case Ok(None) => ServerError(NothingToUnpack)
    case Ok(Some(NotDone(info))) => Served(Pending(info))
    case Ok(Some(Done(urls))) =>
      match CollectAll(cfg, urls, fetch, loads)
      case Err(f) => ServerError(f)
      case Ok(ids) => Served(Identifiers(ids))
  }

  /** `get_uuids(location)`, extending `uuids` file by file. */
  method GetUuids(cfg: Config, location: string, poll: string -> HttpResponse,
                  fetch: string -> NdjsonResponse, loads: seq<Byte> -> Option<Json>)
    returns (reply: Reply<Answer>)
    ensures reply == Uuids(cfg, location, poll, fetch, loads)
  {
    var status := ExtractLocation(cfg, location, poll);
    if status.Err? {
      return ServerError(status.error);
    }
    if status.value.None? {
      return ServerError(NothingToUnpack);
    }
    match status.value.value {
      case NotDone(info) =>
        return Served(Pending(info));
      case Done(urls) =>
        var uuids := ExtendUuids(cfg, urls, fetch, loads);
        return if uuids.Ok? then Served(Identifiers(uuids.value)) else ServerError(uuids.error);
    }
  }

  /** The loop of `get_uuids`, extending `uuids` by the ids of one file after the other. */
  method ExtendUuids(cfg: Config, urls: seq<string>, fetch: string -> NdjsonResponse, loads: seq<Byte> -> Option<Json>)
    returns (r: Result<seq<Json>, Fault>)
    ensures r == CollectAll(cfg, urls, fetch, loads)
  {
    var uuids: seq<Json> := [];
    for i := 0 to |urls|
      invariant CollectAll(cfg, urls[..i], fetch, loads) == Ok(uuids)
    {
      assert urls[..i + 1][..i] == urls[..i];
      var ids := ExtractPatientId(cfg, urls[i], fetch, loads);
      if ids.Err? || ids.value.None? {
        CollectAllAppend(cfg, urls[..i + 1], urls[i + 1..], fetch, loads);
        assert urls[..i + 1] + urls[i + 1..] == urls;
        return Err(if ids.Err? then ids.error else NotIterable);
      }
      uuids := uuids + ids.value.value;
    }
    assert urls[..|urls|] == urls;
    return Ok(uuids);
  }

  /** A poll that is not done is served unchanged, and ids are served only for a finished job whose files all read. */
  lemma UuidsOutcome(cfg: Config, location: string, poll: string -> HttpResponse,
                     fetch: string -> NdjsonResponse, loads: seq<Byte> -> Option<Json>)
    ensures forall info :: ExtractLocation(cfg, location, poll) == Ok(Some(NotDone(info))) ==>
              Uuids(cfg, location, poll, fetch, loads) == Served(Pending(info))
    ensures var r := Uuids(cfg, location, poll, fetch, loads);
      r.Served? && r.value.Identifiers? ==>
        cfg.torchBaseUrl.Some? && poll(StatusUrl(cfg.torchBaseUrl.value, location)).status == 200 &&
        ExtractLocation(cfg, location, poll).Ok? && ExtractLocation(cfg, location, poll).value.Some? &&
        ExtractLocation(cfg, location, poll).value.value.Done? &&
        CollectAll(cfg, ExtractLocation(cfg, location, poll).value.value.urls, fetch, loads) == Ok(r.value.ids)
  {
    var r := ExtractLocation(cfg, location, poll);
    if cfg.torchBaseUrl.Some? {
      PollOutcome(cfg, location, poll);
    }
  }
}
