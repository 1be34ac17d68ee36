/** np/webFilesApp.tsx: the files-app client. `apiRequest` builds one request
    from the stored token (header and credentials), the URL join and the
    optional `projectId`; the mutation, query and upload hooks step their
    `loading`/`error`/result state around it. As in the other hooks, the
    response is a parameter, and each hook records what it sent. */
module WebFilesApp {
  import opened Wrappers
  import opened Text
  import opened Json
  import opened Http
  import opened Browser
  import opened TokenUtils
  import Query

  /** `ApiVerb` */
  datatype ApiVerb = Get | Post | Patch | Delete
  {
    function Name(): string {
      match this
      case Get => "get"
      case Post => "post"
      case Patch => "patch"
      case Delete => "delete"
    }

    /** The name as it goes out on the wire. */
    function WireName(): string {
      match this
      case Get => "GET"
      case Post => "POST"
      case Patch => "PATCH"
      case Delete => "DELETE"
    }
  }

  // ---------------------------------------------------------------------------
  // joinUrl

  /** `n` slashes. */
  function Slashes(n: nat): (s: string)
    ensures |s| == n && forall i :: 0 <= i < n ==> s[i] == '/'
  {
    seq(n, _ => '/')
  }

  /** `s.replace(/\/+$/, "")`: the longest prefix not ending in `/`; only
      slashes are dropped. */
  function StripTrailingSlashes(s: string): (r: string)
    ensures |r| <= |s| && r == s[..|r|]
    ensures r == [] || r[|r| - 1] != '/'
    ensures forall i :: |r| <= i < |s| ==> s[i] == '/'
  {
    if |s| > 0 && s[|s| - 1] == '/' then StripTrailingSlashes(s[..|s| - 1]) else s
  }

  /** `s.replace(/^\/+/, "")`: the longest suffix not starting with `/`; only
      slashes are dropped. */
  function StripLeadingSlashes(s: string): (r: string)
    ensures |r| <= |s| && r == s[|s| - |r|..]
    ensures r == [] || r[0] != '/'
    ensures forall i :: 0 <= i < |s| - |r| ==> s[i] == '/'
  {
    if |s| > 0 && s[0] == '/' then StripLeadingSlashes(s[1..]) else s
  }

  /** `joinUrl(base, path)`: an empty base gives the path unchanged; otherwise
      the base without its trailing slashes, one `/`, and the path without its
      leading slashes, so the seam holds exactly one slash. */
  function JoinUrl(base: string, path: string): (r: string)
    ensures base == "" ==> r == path
    ensures base != "" ==>
      var b := StripTrailingSlashes(base);
      var p := StripLeadingSlashes(path);
      |r| == |b| + 1 + |p| && r[..|b|] == b && r[|b|] == '/' && r[|b| + 1..] == p &&
      (|b| == 0 || r[|b| - 1] != '/') && (|p| == 0 || r[|b| + 1] != '/')
  {
    if base == "" then path
    else
      var r := StripTrailingSlashes(base) + "/" + StripLeadingSlashes(path);
      r
  }

  lemma {:induction false} StripTrailingExtra(base: string, k: nat)
    ensures StripTrailingSlashes(base + Slashes(k)) == StripTrailingSlashes(base)
    decreases k
  {
    if k > 0 {
      var s := base + Slashes(k);
      assert s[..|s| - 1] == base + Slashes(k - 1);
      StripTrailingExtra(base, k - 1);
    } else {
      assert base + Slashes(0) == base;
    }
  }

  lemma {:induction false} StripLeadingExtra(path: string, m: nat)
    ensures StripLeadingSlashes(Slashes(m) + path) == StripLeadingSlashes(path)
    decreases m
  {
    if m > 0 {
      var s := Slashes(m) + path;
      assert s[1..] == Slashes(m - 1) + path;
      StripLeadingExtra(path, m - 1);
    } else {
      assert Slashes(0) + path == path;
    }
  }

  /** Extra slashes at the end of a (non-empty) base or at the start of the
      path make no difference to the joined URL. */
  lemma JoinUrlIgnoresExtraSlashes(base: string, path: string, k: nat, m: nat)
    requires base != ""
    ensures JoinUrl(base + Slashes(k), Slashes(m) + path) == JoinUrl(base, path)
  {
    StripTrailingExtra(base, k);
    StripLeadingExtra(path, m);
  }

  // ---------------------------------------------------------------------------
  // apiRequest

  /** `projectId ? "?projectId=" + projectId : ""` */
  function ProjectSuffix(projectId: Option<string>): string {
    if projectId.Some? && projectId.value != "" then "?projectId=" + projectId.value else ""
  }

  /** The URL of `apiRequest`: the joined URL, followed by `?projectId=<id>`
      only when a non-empty `projectId` is given. */
  function ApiUrl(apiBaseUrl: string, path: string, projectId: Option<string>): (url: string)
    ensures projectId.None? || projectId.value == "" ==> url == JoinUrl(apiBaseUrl, path)
    ensures projectId.Some? && projectId.value != "" ==>
      url == JoinUrl(apiBaseUrl, path) + "?projectId=" + projectId.value
  {
    JoinUrl(apiBaseUrl, path) + ProjectSuffix(projectId)
  }

  /** The server reads the project back from the URL's query string, as long
      as the joined URL has no query or fragment of its own and the id no `&`
      or `#`. */
  lemma ApiUrlProject(apiBaseUrl: string, path: string, id: string)
    requires id != ""
    requires '?' !in JoinUrl(apiBaseUrl, path) && '#' !in JoinUrl(apiBaseUrl, path)
    requires '&' !in id && '#' !in id
    ensures Query.Get(Query.SearchOf(ApiUrl(apiBaseUrl, path, Some(id))), "projectId") == Some(id)
  {
    var pairs := [("projectId", id)];
    var search := "?projectId=" + id;
    assert Query.Pieces(pairs) == ["projectId" + "=" + id];
    assert "projectId" + "=" + id == "projectId=" + id;
    assert Query.Serialize(pairs) == search;
    assert '#' !in "?projectId=";
    assert ApiUrl(apiBaseUrl, path, Some(id)) == JoinUrl(apiBaseUrl, path) + search;
    Query.SearchAfterPlainPrefix(JoinUrl(apiBaseUrl, path), search);
    assert Query.PlainPair(pairs[0]);
    Query.GetSerialized(pairs, "projectId");
  }

  /** The request `apiRequest(method, path, apiBaseUrl, data, projectId)`
      hands to fetch when the bearer slot holds `token`. The headers are those
      `getHeaders` builds: the bearer token goes out exactly when it is valid,
      and cookies exactly when it is not. The method goes out upper-cased. A JSON body is
      attached only for truthy data and a method other than get. */
  function ApiRequest(verb: ApiVerb, path: string, apiBaseUrl: string, data: Option<Json>,
                      projectId: Option<string>, token: Option<string>, nowMs: int,
                      decode: Decoder): (r: Request)
    ensures r.url == ApiUrl(apiBaseUrl, path, projectId)
    ensures r.verb == verb.WireName()
    ensures r.headers.Keys <= {"Content-Type", "Authorization"}
    ensures "Content-Type" in r.headers && r.headers["Content-Type"] == "application/json"
    ensures "Authorization" in r.headers <==> HasValidToken(token, nowMs, decode)
    ensures "Authorization" in r.headers ==> r.headers["Authorization"] == "Bearer " + token.value
    ensures r.credentials == Omit <==> HasValidToken(token, nowMs, decode)
    ensures r.credentials == Include <==> !HasValidToken(token, nowMs, decode)
    ensures r.body.NoBody? <==> data.None? || !Truthy(data.value) || verb == Get
    ensures !r.body.NoBody? ==> r.body == JsonBody(data.value)
  {
    var hasValidToken := HasValidToken(token, nowMs, decode);
    var headers := GetHeaders(token, nowMs, decode);
    var body := if data.Some? && Truthy(data.value) && verb != Get then JsonBody(data.value) else NoBody;
    Request(ApiUrl(apiBaseUrl, path, projectId), verb.WireName(), headers, body,
            if hasValidToken then Omit else Include)
  }

  /** `method.toUpperCase()` sends each method under its wire name: GET,
      POST, PATCH, DELETE. */
  lemma UpperCaseVerbs(verb: ApiVerb)
    ensures ToUpper(verb.Name()) == verb.WireName()
  {
    var u := ToUpper(verb.Name());
    match verb
    case Get =>
      assert u[0] == 'G' && u[1] == 'E' && u[2] == 'T';
    case Post =>
      assert u[0] == 'P' && u[1] == 'O' && u[2] == 'S' && u[3] == 'T';
    case Patch =>
      assert u[0] == 'P' && u[1] == 'A' && u[2] == 'T' && u[3] == 'C' && u[4] == 'H';
    case Delete =>
      assert u[0] == 'D' && u[1] == 'E' && u[2] == 'L' && u[3] == 'E' && u[4] == 'T' && u[5] == 'E';
  }

  /** The message thrown for a non-OK response: the response text, or
      `HTTP <status>` when the text is empty. */
  function NotOkText(response: Response): (m: string)
    ensures m != ""
    ensures response.text != "" ==> m == response.text
    ensures response.text == "" ==>
      StartsWith(m, "HTTP ") && ParseInt(m[|"HTTP "|..]) == Some(response.status)
  {
    if response.text != "" then response.text
    else
      var m := "HTTP " + IntToString(response.status);
      IntToStringRoundTrip(response.status);
      assert m[|"HTTP "|..] == IntToString(response.status);
      m
  }

  /** What `await apiRequest(…)` yields: the parsed body of a 2xx response, or
      the message of the error thrown on the way. */
  function ApiResult(outcome: Outcome): (r: Result<Json, string>)
    ensures outcome.Delivered? && !outcome.response.Ok() ==>
      r.Failure? && r.error != "" &&
      (outcome.response.text != "" ==> r.error == outcome.response.text)
    ensures r.Success? <==>
      outcome.Delivered? && outcome.response.Ok() && outcome.response.json.Success?
  {
    Settle(outcome, NotOkText)
  }

  /** `err.message || fallback` */
  function ErrorText(message: string, fallback: string): (r: string)
    ensures message != "" ==> r == message
    ensures message == "" ==> r == fallback
  {
    if message != "" then message else fallback
  }

  // ---------------------------------------------------------------------------
  // Validators

  /** An `AppFile` as far as the client reads it: `id`, `url` and the optional
      `name`; its other members travel in `others`. */
  datatype AppFile = AppFile(id: string, url: string, name: Option<string>, others: seq<(string, Json)>)

  /** `JSON.stringify(file)`: `undefined` members are left out. */
  function AppFileJson(file: Option<AppFile>): (j: Json)
    ensures file.None? ==> j == JNull
    ensures file.Some? ==> j.JObject? && Member(j, "id") != None
  {
    match file
    case None => JNull
    case Some(f) =>
      var head := [("id", JString(f.id)), ("url", JString(f.url))] +
                  (if f.name.Some? then [("name", JString(f.name.value))] else []);
      var ms := head + f.others;
      assert ms[0].0 == "id";
      JObject(ms)
  }

  datatype ValidatorResult = ValidatorResult(passed: bool, message: string)

  /** `validateAppFile`: the file must be present, then have a name, then have
      a URL unless its id marks it as a `temp_` file; the first check that
      fails gives the message. */
  function ValidateAppFile(file: Option<AppFile>): (r: ValidatorResult)
    ensures r.passed <==>
      file.Some? && file.value.name.Some? && file.value.name.value != "" &&
      (file.value.url != "" || StartsWith(file.value.id, "temp_"))
    ensures r.passed ==> r.message == ""
    ensures file.None? ==> r.message == "File data is required"
    ensures file.Some? && (file.value.name.None? || file.value.name.value == "") ==>
      r.message == "File name is required"
    ensures (file.Some? && file.value.name.Some? && file.value.name.value != "" &&
             file.value.url == "" && !StartsWith(file.value.id, "temp_")) ==>
      r.message == "File URL is required"
  {
    if file.None? then ValidatorResult(false, "File data is required")
    else if file.value.name.None? || file.value.name.value == "" then
      ValidatorResult(false, "File name is required")
    else if file.value.url == "" && !StartsWith(file.value.id, "temp_") then
      ValidatorResult(false, "File URL is required")
    else ValidatorResult(true, "")
  }

  /** The check of `useDeleteFilesAppFile`: an id is required. */
  function ValidateFileId(id: string): (r: ValidatorResult)
    ensures r.passed <==> id != ""
    ensures !r.passed ==> r.message == "File ID is required"
  {
    if id == "" then ValidatorResult(false, "File ID is required") else ValidatorResult(true, "")
  }

  /** The body of a delete: `{ id, projectId }`, where an undefined
      `projectId` is left out by `JSON.stringify`. */
  function DeleteBody(projectId: Option<string>): string -> Json
  {
    id => JObject([("id", JString(id))] +
                  (if projectId.Some? then [("projectId", JString(projectId.value))] else []))
  }

  /** A delete request names the file and, when given, the project. */
  lemma DeleteBodyNamesFile(projectId: Option<string>, id: string)
    ensures Member(DeleteBody(projectId)(id), "id") == Some(JString(id))
    ensures Member(DeleteBody(projectId)(id), "projectId") ==
      (if projectId.Some? then Some(JString(projectId.value)) else None)
    ensures Truthy(DeleteBody(projectId)(id))
  {
    var ms := DeleteBody(projectId)(id).members;
    if projectId.Some? {
      assert ms == [("id", JString(id)), ("projectId", JString(projectId.value))];
      assert ms[..1] == [("id", JString(id))];
      assert LastMember(ms[..1], "id") == Some(JString(id));
    } else {
      assert ms == [("id", JString(id))];
    }
  }

  // ---------------------------------------------------------------------------
  // Hooks

  /** `useBaseMutation` (and `useDeleteFilesAppFile`, which has the same shape
      with its own check, body and fallback message). `completions` records
      the `(message, data)` each `onComplete` was called with. */
  class Mutation<T> {
    const apiBaseUrl: string
    const path: string
    const verb: ApiVerb
    const projectId: Option<string>
    const validator: T -> ValidatorResult
    const encode: T -> Json
    const fallback: string
    var loading: bool
    var error: string
    var sent: seq<Request>
    var completions: seq<(Option<Json>, Option<Json>)>
    ghost var loadingTrace: seq<bool>

    constructor (apiBaseUrl: string, path: string, verb: ApiVerb, projectId: Option<string>,
                 validator: T -> ValidatorResult, encode: T -> Json, fallback: string)
      ensures this.apiBaseUrl == apiBaseUrl && this.path == path && this.verb == verb
      ensures this.projectId == projectId && this.validator == validator
      ensures this.encode == encode && this.fallback == fallback
      ensures !loading && error == "" && sent == [] && completions == [] && loadingTrace == []
    {
      this.apiBaseUrl := apiBaseUrl;
      this.path := path;
      this.verb := verb;
      this.projectId := projectId;
      this.validator := validator;
      this.encode := encode;
      this.fallback := fallback;
      loading := false;
      error := "";
      sent := [];
      completions := [];
      loadingTrace := [];
    }

    /** `submit(data, onComplete)` with the bearer slot holding `token`. The
      error is cleared first. Data the validator rejects sets the error to its
      message and nothing is sent and `loading` is not touched. Otherwise
      `loading` goes true, one request goes out, and `loading` goes false
      again whether it succeeds or fails; a failure sets the error to the
      thrown message or the fallback. */
    method Submit(data: T, hasOnComplete: bool, token: Option<string>, nowMs: int, decode: Decoder,
                  outcome: Outcome)
      modifies this
      ensures !validator(data).passed ==>
        error == validator(data).message && loading == old(loading) && sent == old(sent) &&
        completions == old(completions) && loadingTrace == old(loadingTrace)
      ensures validator(data).passed ==>
        sent == old(sent) + [ApiRequest(verb, path, apiBaseUrl, Some(encode(data)), projectId,
                                        token, nowMs, decode)] &&
        loadingTrace == old(loadingTrace) + [true] + [false] && !loading
      ensures validator(data).passed && ApiResult(outcome).Success? ==>
        error == "" &&
        completions == old(completions) +
          (if hasOnComplete then
             [(Member(ApiResult(outcome).value, "message"), Member(ApiResult(outcome).value, "data"))]
           else [])
      ensures validator(data).passed && ApiResult(outcome).Failure? ==>
        error == ErrorText(ApiResult(outcome).error, fallback) && completions == old(completions)
    {
      error := "";
      var check := validator(data);
      if !check.passed {
        error := check.message;
        return;
      }
      var request := ApiRequest(verb, path, apiBaseUrl, Some(encode(data)), projectId, token, nowMs, decode);
      var settled := ApiResult(outcome);
      loading := true;
      loadingTrace := loadingTrace + [true];
      sent := sent + [request];
      match settled {
        case Success(result) =>
          loading := false;
          loadingTrace := loadingTrace + [false];
          if hasOnComplete {
            completions := completions + [(Member(result, "message"), Member(result, "data"))];
          }
        case Failure(message) =>
          loading := false;
          loadingTrace := loadingTrace + [false];
          error := ErrorText(message, fallback);
      }
    }
  }

  /** `useAddFilesAppFile`: POST of a checked `AppFile` to files_app. */
  method UseAddFilesAppFile(apiBaseUrl: string, projectId: Option<string>)
    returns (m: Mutation<Option<AppFile>>)
    ensures fresh(m) && m.apiBaseUrl == apiBaseUrl && m.path == "files_app" && m.verb == Post
    ensures m.projectId == projectId && m.validator == ValidateAppFile && m.encode == AppFileJson
    ensures m.fallback == "An error occurred"
    ensures !m.loading && m.error == "" && m.sent == [] && m.completions == []
  {
    m := new Mutation(apiBaseUrl, "files_app", Post, projectId, ValidateAppFile, AppFileJson,
                      "An error occurred");
  }

  /** `useUpdateFilesAppFile`: PATCH of a checked `AppFile` to files_app. */
  method UseUpdateFilesAppFile(apiBaseUrl: string, projectId: Option<string>)
    returns (m: Mutation<Option<AppFile>>)
    ensures fresh(m) && m.apiBaseUrl == apiBaseUrl && m.path == "files_app" && m.verb == Patch
    ensures m.projectId == projectId && m.validator == ValidateAppFile && m.encode == AppFileJson
    ensures m.fallback == "An error occurred"
    ensures !m.loading && m.error == "" && m.sent == [] && m.completions == []
  {
    m := new Mutation(apiBaseUrl, "files_app", Patch, projectId, ValidateAppFile, AppFileJson,
                      "An error occurred");
  }

  /** `useDeleteFilesAppFile`: DELETE of `{ id, projectId }` to files_app,
      refused without an id, with "Delete failed" as the fallback message. */
  method UseDeleteFilesAppFile(apiBaseUrl: string, projectId: Option<string>)
    returns (m: Mutation<string>)
    ensures fresh(m) && m.apiBaseUrl == apiBaseUrl && m.path == "files_app" && m.verb == Delete
    ensures m.projectId == projectId && m.validator == ValidateFileId
    ensures m.encode == DeleteBody(projectId) && m.fallback == "Delete failed"
    ensures !m.loading && m.error == "" && m.sent == [] && m.completions == []
  {
    m := new Mutation(apiBaseUrl, "files_app", Delete, projectId, ValidateFileId,
                      DeleteBody(projectId), "Delete failed");
  }

  /** `useBaseQuery`: `result` starts as null, every flag false. */
  class BaseQuery {
    const apiBaseUrl: string
    const path: string
    const projectId: Option<string>
    var result: Option<Json>
    var loading: bool
    var isRefetching: bool
    var isRefetchingByUser: bool
    var error: string
    var sent: seq<Request>
    ghost var loadingTrace: seq<bool>
    ghost var byUserTrace: seq<bool>

    constructor (apiBaseUrl: string, path: string, projectId: Option<string>)
      ensures this.apiBaseUrl == apiBaseUrl && this.path == path && this.projectId == projectId
      ensures result == Some(JNull) && !loading && !isRefetching && !isRefetchingByUser
      ensures error == "" && sent == [] && loadingTrace == [] && byUserTrace == []
    {
      this.apiBaseUrl := apiBaseUrl;
      this.path := path;
      this.projectId := projectId;
      result := Some(JNull);
      loading := false;
      isRefetching := false;
      isRefetchingByUser := false;
      error := "";
      sent := [];
      loadingTrace := [];
      byUserTrace := [];
    }

    /** `fetchData(isUserTriggered)`: a refetch the user asked for raises
      `isRefetchingByUser` instead of `loading`; either way the error is
      cleared, one GET without a body goes out, a success stores the body's
      `data` member and a failure sets the error (default "Failed to fetch
      data"), and all three flags end false. */
    method FetchData(isUserTriggered: bool, token: Option<string>, nowMs: int, decode: Decoder,
                     outcome: Outcome)
      modifies this
      ensures sent == old(sent) + [ApiRequest(Get, path, apiBaseUrl, None, projectId, token, nowMs, decode)]
      ensures isUserTriggered ==>
        byUserTrace == old(byUserTrace) + [true] + [false] && loadingTrace == old(loadingTrace) + [false]
      ensures !isUserTriggered ==>
        loadingTrace == old(loadingTrace) + [true] + [false] && byUserTrace == old(byUserTrace) + [false]
      ensures !loading && !isRefetching && !isRefetchingByUser
      ensures ApiResult(outcome).Success? ==>
        result == Member(ApiResult(outcome).value, "data") && error == ""
      ensures ApiResult(outcome).Failure? ==>
        result == old(result) && error == ErrorText(ApiResult(outcome).error, "Failed to fetch data")
    {
      var request := ApiRequest(Get, path, apiBaseUrl, None, projectId, token, nowMs, decode);
      var settled := ApiResult(outcome);
      Start(isUserTriggered);
      sent := sent + [request];
      if settled.Success? {
        result := Member(settled.value, "data");
      } else {
        error := ErrorText(settled.error, "Failed to fetch data");
      }
      Finish();
    }

    /** The start of `fetchData`: the flag for who asked goes up, and so does
      `isRefetching`; the error is cleared. */
    method Start(isUserTriggered: bool)
      modifies this
      ensures isUserTriggered ==>
        isRefetchingByUser && byUserTrace == old(byUserTrace) + [true] &&
        loading == old(loading) && loadingTrace == old(loadingTrace)
      ensures !isUserTriggered ==>
        loading && loadingTrace == old(loadingTrace) + [true] &&
        isRefetchingByUser == old(isRefetchingByUser) && byUserTrace == old(byUserTrace)
      ensures isRefetching && error == ""
      ensures result == old(result) && sent == old(sent)
    {
      if isUserTriggered {
        isRefetchingByUser := true;
        byUserTrace := byUserTrace + [true];
      } else {
        loading := true;
        loadingTrace := loadingTrace + [true];
      }
      isRefetching := true;
      error := "";
    }

    /** The `finally` of `fetchData`: all three flags go down. */
    method Finish()
      modifies this
      ensures !loading && !isRefetching && !isRefetchingByUser
      ensures loadingTrace == old(loadingTrace) + [false] && byUserTrace == old(byUserTrace) + [false]
      ensures result == old(result) && error == old(error) && sent == old(sent)
    {
      loading := false;
      loadingTrace := loadingTrace + [false];
      isRefetching := false;
      isRefetchingByUser := false;
      byUserTrace := byUserTrace + [false];
    }
  }

  /** `useFileAppFiles`: the query on files_app. */
  method UseFileAppFiles(apiBaseUrl: string, projectId: Option<string>) returns (q: BaseQuery)
    ensures fresh(q) && q.apiBaseUrl == apiBaseUrl && q.path == "files_app" && q.projectId == projectId
    ensures q.result == Some(JNull) && !q.loading && q.error == "" && q.sent == []
  {
    q := new BaseQuery(apiBaseUrl, "files_app", projectId);
  }

  /** The message of a failed upload: `Upload failed: <status> <statusText>`. */
  function UploadFailedText(response: Response): (m: string)
    ensures StartsWith(m, "Upload failed: ")
    ensures m[|"Upload failed: "|..] == IntToString(response.status) + " " + response.statusText
  {
    "Upload failed: " + IntToString(response.status) + " " + response.statusText
  }

  /** The upload request: a POST of a form holding the file to the joined
      URL. Only the bearer header is set, and only for a valid token; cookies
      go exactly when it is not valid. */
  function UploadRequest(apiBaseUrl: string, uploadPath: string, fileName: string,
                         token: Option<string>, nowMs: int, decode: Decoder): (r: Request)
    ensures r.url == JoinUrl(apiBaseUrl, uploadPath) && r.verb == "POST" && r.body == FileForm(fileName)
    ensures "Authorization" in r.headers <==> HasValidToken(token, nowMs, decode)
    ensures "Authorization" in r.headers ==> r.headers["Authorization"] == "Bearer " + token.value
    ensures r.headers.Keys <= {"Authorization"}
    ensures r.credentials == Omit <==> HasValidToken(token, nowMs, decode)
    ensures r.credentials == Include <==> !HasValidToken(token, nowMs, decode)
  {
    var hasValidToken := HasValidToken(token, nowMs, decode);
    var headers: Headers := if hasValidToken then map["Authorization" := "Bearer " + token.value] else map[];
    Request(JoinUrl(apiBaseUrl, uploadPath), "POST", headers, FileForm(fileName),
            if hasValidToken then Omit else Include)
  }

  /** `useWebFileUpload`: `loading` maps the ids of uploads in progress to
      true. `completions` records what each `onComplete` was called with. */
  class FileUpload {
    const apiBaseUrl: string
    var loading: map<string, bool>
    var sent: seq<Request>
    var completions: seq<Option<Json>>
    ghost var loadingHistory: seq<map<string, bool>>

    constructor (apiBaseUrl: string)
      ensures this.apiBaseUrl == apiBaseUrl && loading == map[]
      ensures sent == [] && completions == [] && loadingHistory == []
    {
      this.apiBaseUrl := apiBaseUrl;
      loading := map[];
      sent := [];
      completions := [];
      loadingHistory := [];
    }

    /** `uploadFile(id, file, onComplete, uploadPath)`; `file` is the file's
      name, or `None` for a missing file. A missing file throws "File is
      required" before anything changes. Otherwise `id` is marked as loading
      before the request, and in the end only `id` is removed from the map;
      a failure is rethrown, and a success hands the body's `data` member to
      `onComplete`. */
    method UploadFile(id: string, file: Option<string>, uploadPath: string,
                      token: Option<string>, nowMs: int, decode: Decoder, outcome: Outcome)
      returns (r: Result<(), string>)
      modifies this
      ensures file.None? ==>
        r == Failure("File is required") && loading == old(loading) && sent == old(sent) &&
        completions == old(completions) && loadingHistory == old(loadingHistory)
      ensures file.Some? ==>
        loadingHistory == old(loadingHistory) + [old(loading)[id := true], old(loading) - {id}] &&
        loading == old(loading) - {id} &&
        sent == old(sent) + [UploadRequest(apiBaseUrl, uploadPath, file.value, token, nowMs, decode)]
      ensures file.Some? ==>
        (r.Success? <==> outcome.Delivered? && outcome.response.Ok() && outcome.response.json.Success?)
      ensures file.Some? && r.Success? ==>
        completions == old(completions) + [Member(outcome.response.json.value, "data")]
      ensures file.Some? && r.Failure? ==> completions == old(completions)
      ensures file.Some? && outcome.Delivered? && !outcome.response.Ok() ==>
        r == Failure(UploadFailedText(outcome.response))
    {
      if file.None? {
        return Failure("File is required");
      }
      loading := loading[id := true];
      loadingHistory := loadingHistory + [loading];
      sent := sent + [UploadRequest(apiBaseUrl, uploadPath, file.value, token, nowMs, decode)];
      match Settle(outcome, UploadFailedText) {
        case Success(result) =>
          completions := completions + [Member(result, "data")];
          r := Success(());
        case Failure(message) =>
          r := Failure(message);
      }
      assert loading - {id} == old(loading) - {id};
      loading := loading - {id};
      loadingHistory := loadingHistory + [loading];
    }
  }

  /** Finishing an upload leaves the other uploads' entries as they were. */
  lemma UploadTouchesOnlyItsId(before: map<string, bool>, id: string, other: string)
    requires other != id
    ensures other in before[id := true] <==> other in before
    ensures other in before - {id} <==> other in before
    ensures other in before ==> (before - {id})[other] == before[other]
    ensures id in before[id := true] && id !in before - {id}
  {
  }
}
