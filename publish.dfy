/**
 * What `onComplete` does once the results are collected: the empty-results
 * early return, the request it posts, how it reads the response, and whether
 * it then removes the working folder.
 */
module Publisher {
  import opened Wrappers
  import opened Decimal
  import opened JsValues
  import opened Options

  const PublishUrl: string :=
    "https://1k0og4tfve.execute-api.us-east-1.amazonaws.com/prod/nimble/v1/test-runner/add-automated-test-execution"

  const AppBase: string := "https://app.qualitywatcher.com/"

  /** The JSON body of the POST, field by field. */
  datatype RequestBody = RequestBody(
    testRunName: string,
    description: string,
    includeAllCases: bool,
    projectId: int,
    suites: seq<nat>,
    results: seq<JsValue>)

  /** The POST that `postData` sends: its URL, its bearer token and its body. */
  datatype Request = Request(url: string, authorization: string, body: RequestBody)

  /**
   * What the server gave back: no response at all (the fetch rejected), or a
   * status with its body; the body is `None` when `response.json()` rejects.
   */
  datatype Response = NetworkError | Reply(status: int, body: Option<JsValue>)

  /** What `onComplete` reports, in place of its console output. */
  datatype Outcome =
    | ResultsFileError            // writing results.json threw; the outer catch logs it
    | NoTestsRun                  // nothing was collected: early return
    | Published(title: string, link: string)
    | ApiKeyError                 // status 500
    | BadRequest(message: string) // any other status with a readable `error`
    | HandlerError                // the `.catch` handler itself threw; the outer catch logs it

  /** What one publish attempt amounts to. */
  datatype Decision = Decision(request: Option<Request>, outcome: Outcome, folderRemoved: bool)

  /** The link logged for a created test run. */
  function SuccessLink(projectId: string, id: string): string {
    AppBase + projectId + "/test-runner/" + id
  }

  /** A link names one run: its project and run segments can be read back when the project has no '/'. */
  lemma SuccessLinkInjective(p: string, i: string, p': string, i': string)
    requires '/' !in p && '/' !in p'
    requires SuccessLink(p, i) == SuccessLink(p', i')
    ensures p == p' && i == i'
  {
    var tail := "/test-runner/";
    var s, s' := p + tail + i, p' + tail + i';
    assert s == SuccessLink(p, i)[|AppBase|..];
    assert s' == SuccessLink(p', i')[|AppBase|..];
    // the first '/' of each sequence ends its project segment
    var m := if |p| < |p'| then |p| else |p'|;
    assert s[m] == s'[m];
    assert s[m] == '/' <==> m == |p|;
    assert s'[m] == '/' <==> m == |p'|;
    assert p == s[..|p|] && p' == s'[..|p'|];
    assert i == s[|p| + |tail|..] && i' == s'[|p'| + |tail|..];
  }

  /** For numeric ids the link determines the project id and the run id. */
  lemma NumericSuccessLinkInjective(p: int, i: int, p': int, i': int)
    requires SuccessLink(IntText(p), IntText(i)) == SuccessLink(IntText(p'), IntText(i'))
    ensures p == p' && i == i'
  {
    SuccessLinkInjective(IntText(p), IntText(i), IntText(p'), IntText(i'));
    IntTextInjective(p, p');
    IntTextInjective(i, i');
  }

  lemma IntTextInjective(m: int, n: int)
    requires IntText(m) == IntText(n)
    ensures m == n
  {
    if m >= 0 && n >= 0 {
      FromNatInjective(m, n);
    } else if m < 0 && n < 0 {
      assert IntText(m)[1..] == FromNat(-m) && IntText(n)[1..] == FromNat(-n);
      FromNatInjective(-m, -n);
    }
  }

  /** How far the `.then` chain gets before `.catch`. */
  datatype Settled = Resolved(outcome: Outcome) | Rejected(thrown: Thrown)

  /** What reaches `.catch`: the `{ response, data }` object, or any other error. */
  datatype Thrown = HttpFailure(status: int, data: JsValue) | OtherError

  /** The two `.then` steps: the status check, then reading the created run. */
  function ThenSteps(response: Response): Settled {
    match response
    case NetworkError => Rejected(OtherError)
    case Reply(status, body) =>
      if body.None? then Rejected(OtherError)
      else if status != 200 then Rejected(HttpFailure(status, body.value))
      else
        var data := body.value;
        match GetProp(data, "title")
        case None => Rejected(OtherError)
        case Some(title) =>
          var projectId := GetProp(data, "projectId").value;
          var id := GetProp(data, "id").value;
          Resolved(Published(ToText(title), SuccessLink(ToText(projectId), ToText(id))))
  }

  /**
   * The `.catch` handler. It destructures `{ response, data }`, so for any other
   * error `response` is undefined and reading its status throws.
   */
  function CatchHandler(thrown: Thrown): Outcome {
    match thrown
    case OtherError => HandlerError
    case HttpFailure(status, data) =>
      if status == 500 then ApiKeyError
      else
        match GetProp(data, "error")
        case None => HandlerError
        case Some(error) =>
          match GetProp(error, "code")
          case None => HandlerError
          case Some(code) =>
            var message := GetProp(error, "message").value;
            BadRequest("Bad Request(" + ToText(code) + "): " + ToText(message))
  }

  /**
   * The outcome of a posted request. Status 200 with a body that is an object
   * (or any non-null value) is a published run with its link; status 500 is the
   * API-key diagnostic; any other status is "Bad Request(code): message" from
   * `data.error`; everything else escapes the handler.
   */
  function HandleResponse(response: Response): (o: Outcome)
    ensures o.Published? <==> response.Reply? && response.status == 200 && response.body.Some?
                              && !(response.body.value.Null? || response.body.value.Undefined?)
    ensures o.ApiKeyError? <==> response.Reply? && response.status == 500 && response.body.Some?
    ensures o.BadRequest? ==> response.Reply? && response.status != 200 && response.status != 500
                              && response.body.Some? && response.body.value.Obj?
                              && "error" in response.body.value.props
    ensures o.Published? ==>
      var data := response.body.value;
      o.link == SuccessLink(ToText(GetProp(data, "projectId").value), ToText(GetProp(data, "id").value))
    ensures response.NetworkError? || (response.Reply? && response.body.None?) ==> o == HandlerError
    ensures !o.ResultsFileError? && !o.NoTestsRun?
  {
    match ThenSteps(response)
    case Resolved(outcome) => outcome
    case Rejected(thrown) => CatchHandler(thrown)
  }

  /** The body `onComplete` builds: options and state copied unchanged. */
  function BuildRequestBody(options: UserOptions, suites: seq<nat>, results: seq<JsValue>): (b: RequestBody)
    requires ValidateOptions(options).Accepted?
    ensures Some(b.testRunName) == options.testRunName && Some(b.description) == options.description
    ensures Some(b.includeAllCases) == options.includeAllCases && Some(b.projectId) == options.projectId
    ensures b.suites == suites && b.results == results
  {
    AcceptedOptionsIncludeAllCases(options);
    RequestBody(options.testRunName.value, options.description.value, options.includeAllCases.value,
                options.projectId.value, suites, results)
  }

  /**
   * The rest of `onComplete` after the file loop. Writing results.json comes
   * first; an empty `results` returns before any request and before the
   * cleanup; otherwise the request is posted and the folder is removed unless
   * the response handler threw.
   */
  function Publish(options: UserOptions, suites: seq<nat>, results: seq<JsValue>,
                   resultsFileWritten: bool, response: Response): (d: Decision)
    requires ValidateOptions(options).Accepted?
    ensures d.request.Some? <==> resultsFileWritten && |results| > 0
    ensures d.request.Some? ==>
      && d.request.value.url == PublishUrl
      && d.request.value.authorization == "Bearer " + options.apiKey.value
      && d.request.value.body == BuildRequestBody(options, suites, results)
    ensures d.request.None? ==> !d.folderRemoved
    ensures !resultsFileWritten ==> d.outcome == ResultsFileError
    ensures resultsFileWritten && results == [] ==> d.outcome == NoTestsRun
    ensures d.request.Some? ==> d.outcome == HandleResponse(response)
    ensures d.folderRemoved <==> d.request.Some? && d.outcome != HandlerError
  {
    if !resultsFileWritten then
      Decision(None, ResultsFileError, false)
    else if |results| == 0 then
      Decision(None, NoTestsRun, false)
    else
      var request := Request(PublishUrl, "Bearer " + options.apiKey.value, BuildRequestBody(options, suites, results));
      var outcome := HandleResponse(response);
      Decision(Some(request), outcome, outcome != HandlerError)
  }

  /** Every request an accepted configuration sends asks for all cases to be included. */
  lemma RequestsIncludeAllCases(options: UserOptions, suites: seq<nat>, results: seq<JsValue>,
                                resultsFileWritten: bool, response: Response)
    requires ValidateOptions(options).Accepted?
    requires Publish(options, suites, results, resultsFileWritten, response).request.Some?
    ensures Publish(options, suites, results, resultsFileWritten, response).request.value.body.includeAllCases
  {
    AcceptedOptionsIncludeAllCases(options);
  }

  /** Any status other than 200 and 500 with an `error` object reports its code and message. */
  lemma BadRequestReply(status: int, data: map<string, JsValue>, error: map<string, JsValue>)
    requires status != 200 && status != 500
    requires "error" in data && data["error"] == Obj(error)
    ensures HandleResponse(Reply(status, Some(Obj(data)))) ==
      BadRequest("Bad Request(" + ToText(GetProp(Obj(error), "code").value) + "): "
                 + ToText(GetProp(Obj(error), "message").value))
  {
  }

  /**
   * An error reply without an `error` property makes the handler throw, so the
   * run is reported by the outer catch and the folder is kept.
   */
  lemma ErrorReplyWithoutErrorField(options: UserOptions, suites: seq<nat>, results: seq<JsValue>,
                                    status: int, data: map<string, JsValue>)
    requires ValidateOptions(options).Accepted? && |results| > 0
    requires status != 200 && status != 500 && "error" !in data
    ensures Publish(options, suites, results, true, Reply(status, Some(Obj(data)))).outcome == HandlerError
    ensures !Publish(options, suites, results, true, Reply(status, Some(Obj(data)))).folderRemoved
  {
  }

  /** A 200 reply whose body gives numeric project and run ids links to exactly that run. */
  lemma PublishedLink(data: map<string, JsValue>, p: int, i: int)
    requires "projectId" in data && data["projectId"] == Num(p)
    requires "id" in data && data["id"] == Num(i)
    ensures HandleResponse(Reply(200, Some(Obj(data)))).Published?
    ensures HandleResponse(Reply(200, Some(Obj(data)))).link == AppBase + IntText(p) + "/test-runner/" + IntText(i)
  {
  }
}
