/** The platform integrations (integrations/multi_platform.py): the registry of
    the three vendor APIs and their keys, the requests the assistant would send
    and what it makes of the replies, the fan-out of one query to several
    vendors, the merge of their answers into one text, and the packages it
    saves for a new AI space and for a handoff to DeepAgent. Each vendor's
    reply (or the exception its call raised) is an input. */
module Integrations {
  import opened Prelude
  import opened Dicts
  import opened PyValues
  import opened Store

  // ===================== the registry =====================

  /** `APIConfig`; `headers` lists the header templates in order. */
  datatype ApiConfig = ApiConfig(
    name: string,
    endpoint: string,
    key: string,
    headers: seq<(string, string)>,
    active: bool)

  const PerplexityApi: ApiConfig := ApiConfig(
    "Perplexity", "https://api.perplexity.ai/chat/completions", "",
    [("Content-Type", "application/json"), ("Authorization", "Bearer {key}")], true)

  const AbacusApi: ApiConfig := ApiConfig(
    "Abacus.AI", "https://routellm.abacus.ai/v1/chat/completions", "",
    [("Content-Type", "application/json"), ("Authorization", "Bearer {key}")], true)

  const DeepAgentApi: ApiConfig := ApiConfig(
    "DeepAgent", "https://api.deepagent.ai/v1/completions", "",
    [("Content-Type", "application/json"), ("X-API-Key", "{key}")], true)

  /** One entry of `get_integration_status()`. */
  datatype ApiStatus = ApiStatus(configured: bool, active: bool, endpoint: string)

  function StatusOf(api: ApiConfig): ApiStatus
  {
    ApiStatus(api.key != "", api.active, api.endpoint)
  }

  /** `get_integration_status()`: one entry per registered platform, in
      registration order; a platform counts as configured when its key is not
      empty. */
  function IntegrationStatus(apis: Dict<ApiConfig>): (r: Dict<ApiStatus>)
    requires apis.Valid()
    ensures r.Valid() && r.keys == apis.keys
    ensures forall k :: k in apis.vals ==> r.Get(k) == Some(StatusOf(apis.vals[k]))
    ensures forall k :: k in apis.vals ==> (r.vals[k].configured <==> apis.vals[k].key != "")
  {
    Dict(apis.keys, map k | k in apis.vals :: StatusOf(apis.vals[k]))
  }

  // ===================== requests and replies =====================

  datatype Message = Message(role: string, content: string)

  /** The POST a vendor call would send: endpoint, headers, model, messages and
      the remaining body fields. */
  datatype Request = Request(
    endpoint: string,
    headers: seq<(string, string)>,
    model: string,
    messages: seq<Message>,
    options: seq<(string, PyValue)>)

  /** What a vendor call returns: an `{"error": ...}` dict, Perplexity's
      `{"success": True, "response": ...}` or Abacus's
      `{"success": True, "processed_data": ..., "timestamp": ...}`. */
  datatype PlatformResult =
    | Failed(error: string)
    | Answered(response: string)
    | Processed(processedData: string, timestamp: string)

  /** A vendor call: the request issued, if any, and its result. */
  datatype Call = Call(request: Option<Request>, result: PlatformResult)

  /** `query_perplexity(prompt, context)`. `reply` is the answer text the
      vendor sends back, or the text of the exception the call raised. */
  function QueryPerplexity(apis: Dict<ApiConfig>, prompt: string, context: string,
                           reply: Result<string, string>): (call: Call)
    requires "perplexity" in apis.vals
    ensures call.request.None? <==> apis.vals["perplexity"].key == ""
    ensures call.request.None? ==> call.result == Failed("Perplexity API key not configured")
    ensures call.request.Some? ==>
      && call.request.value.endpoint == apis.vals["perplexity"].endpoint
      && ("Authorization", "Bearer " + apis.vals["perplexity"].key) in call.request.value.headers
      && |call.request.value.messages| == 2
      && call.request.value.messages[1] == Message("user", prompt)
      && call.result == match reply {
           case Success(text) => Answered(text)
           case Failure(e) => Failed("Perplexity API error: " + e)
         }
  {
    var api := apis.vals["perplexity"];
    if api.key == "" then Call(None, Failed("Perplexity API key not configured"))
    else
      var request := Request(
        api.endpoint,
        [("Content-Type", "application/json"), ("Authorization", "Bearer " + api.key)],
        "llama-3.1-sonar-large-128k-online",
        [Message("system", "You are Randy's personal AI assistant. Context: " + context),
         Message("user", prompt)],
        [("max_tokens", PInt(2000)), ("temperature", PFloat(0.7))]);
      match reply
      case Success(text) => Call(Some(request), Answered(text))
      case Failure(e) => Call(Some(request), Failed("Perplexity API error: " + e))
  }

  /** `send_to_abacus(data, project_type)`, stamped `clock.iso` on success. */
  function SendToAbacus(apis: Dict<ApiConfig>, json: JsonCodec, data: PyValue, projectType: string,
                        reply: Result<string, string>, clock: Clock): (call: Call)
    requires "abacus" in apis.vals
    ensures call.request.None? <==> apis.vals["abacus"].key == ""
    ensures call.request.None? ==> call.result == Failed("Abacus API key not configured")
    ensures call.request.Some? ==>
      && call.request.value.endpoint == apis.vals["abacus"].endpoint
      && ("Authorization", "Bearer " + apis.vals["abacus"].key) in call.request.value.headers
      && |call.request.value.messages| == 2
      && call.request.value.messages[1] == Message("user", json.dumps(data))
      && call.result == match reply {
           case Success(text) => Processed(text, clock.iso)
           case Failure(e) => Failed("Abacus API error: " + e)
         }
  {
    var api := apis.vals["abacus"];
    if api.key == "" then Call(None, Failed("Abacus API key not configured"))
    else
      var request := Request(
        api.endpoint,
        [("Content-Type", "application/json"), ("Authorization", "Bearer " + api.key)],
        "deepseek-r1",
        [Message("system", "Process this data for Randy's " + projectType + " project"),
         Message("user", json.dumps(data))],
        [("stream", PBool(false))]);
      match reply
      case Success(text) => Call(Some(request), Processed(text, clock.iso))
      case Failure(e) => Call(Some(request), Failed("Abacus API error: " + e))
  }

  // ===================== the fan-out =====================

  const DefaultPlatforms: seq<string> := ["perplexity", "abacus"]

  /** The platform list `orchestrate_multi_query` works on. */
  function Requested(platforms: Option<seq<string>>): seq<string>
  {
    match platforms
    case None => DefaultPlatforms
    case Some(p) => p
  }

  /** The registry holds the two platforms a query can go to. */
  ghost predicate Queryable(apis: Dict<ApiConfig>)
  {
    apis.Valid() && "perplexity" in apis.vals && "abacus" in apis.vals
  }

  /** A call goes out for this requested name. */
  predicate Issues(apis: Dict<ApiConfig>, platform: string)
  {
    || (platform == "perplexity" && "perplexity" in apis.vals && apis.vals["perplexity"].key != "")
    || (platform == "abacus" && "abacus" in apis.vals && apis.vals["abacus"].key != "")
  }

  function QueryData(query: string): PyValue
  {
    PDict(Empty<PyValue>().Put("query", PStr(query)))
  }

  /** The result of the call issued for `platform`. */
  function Respond(apis: Dict<ApiConfig>, json: JsonCodec, platform: string, query: string,
                   reply: Result<string, string>, clock: Clock): (r: PlatformResult)
    requires Issues(apis, platform)
    ensures r.Failed? <==> reply.Failure?
  {
    if platform == "perplexity" then QueryPerplexity(apis, query, "", reply).result
    else SendToAbacus(apis, json, QueryData(query), "multi_query", reply, clock).result
  }

  /** The positions, among the first `n` requested names, for which a call goes out. */
  function IssuedAt(apis: Dict<ApiConfig>, platforms: seq<string>, n: nat): (r: seq<nat>)
    requires n <= |platforms|
    ensures |r| <= n
    ensures forall j :: 0 <= j < |r| ==> r[j] < n && Issues(apis, platforms[r[j]])
    ensures forall i :: 0 <= i < n ==> (Issues(apis, platforms[i]) <==> i in r)
    ensures forall j, k :: 0 <= j < k < |r| ==> r[j] < r[k]
  {
    if n == 0 then []
    else IssuedAt(apis, platforms, n - 1) + (if Issues(apis, platforms[n - 1]) then [n - 1] else [])
  }

  /** What `asyncio.gather` hands back for the first `n` requested names: one
      result per call issued, in request order. `replies[i]` is what the vendor
      behind `platforms[i]` answers. */
  function Responses(apis: Dict<ApiConfig>, json: JsonCodec, platforms: seq<string>, query: string,
                     replies: seq<Result<string, string>>, clock: Clock, n: nat): (r: seq<PlatformResult>)
    requires n <= |platforms| == |replies|
    ensures |r| <= n
  {
    if n == 0 then []
    else
      Responses(apis, json, platforms, query, replies, clock, n - 1)
      + (if Issues(apis, platforms[n - 1])
         then [Respond(apis, json, platforms[n - 1], query, replies[n - 1], clock)] else [])
  }

  /** The `j`-th response is the result of the `j`-th call issued. */
  lemma {:induction false} ResponsesFollowCalls(apis: Dict<ApiConfig>, json: JsonCodec, platforms: seq<string>,
                                                query: string, replies: seq<Result<string, string>>,
                                                clock: Clock, n: nat)
    requires n <= |platforms| == |replies|
    ensures var calls := IssuedAt(apis, platforms, n);
      var r := Responses(apis, json, platforms, query, replies, clock, n);
      && |r| == |calls|
      && forall j :: 0 <= j < |r| ==>
           r[j] == Respond(apis, json, platforms[calls[j]], query, replies[calls[j]], clock)
  {
    var outs := Outcomes(apis, json, platforms, query, replies, clock);
    ResponsesArePresent(apis, json, platforms, query, replies, clock, n);
    IssuedArePresent(apis, json, platforms, query, replies, clock, n);
    PresentFollows(outs, n);
    var calls := IssuedAt(apis, platforms, n);
    var r := Responses(apis, json, platforms, query, replies, clock, n);
    forall j | 0 <= j < |r|
      ensures r[j] == Respond(apis, json, platforms[calls[j]], query, replies[calls[j]], clock)
    {
      assert outs[calls[j]] == Some(r[j]);
    }
  }

  /** The values of the `Some` entries among the first `n` of `outs`, in order. */
  function Present<T>(outs: seq<Option<T>>, n: nat): seq<T>
    requires n <= |outs|
  {
    if n == 0 then []
    else Present(outs, n - 1) + (if outs[n - 1].Some? then [outs[n - 1].value] else [])
  }

  /** The positions of the `Some` entries among the first `n` of `outs`. */
  function PresentAt<T>(outs: seq<Option<T>>, n: nat): seq<nat>
    requires n <= |outs|
  {
    if n == 0 then []
    else PresentAt(outs, n - 1) + (if outs[n - 1].Some? then [n - 1] else [])
  }

  /** The `j`-th present value sits at the `j`-th present position. */
  lemma {:induction false} PresentFollows<T>(outs: seq<Option<T>>, n: nat)
    requires n <= |outs|
    ensures |Present(outs, n)| == |PresentAt(outs, n)|
    ensures forall j :: 0 <= j < |Present(outs, n)| ==>
      PresentAt(outs, n)[j] < n && outs[PresentAt(outs, n)[j]] == Some(Present(outs, n)[j])
  {
    if n > 0 {
      PresentFollows(outs, n - 1);
    }
  }

  /** The gathered responses are the present outcomes. */
  lemma {:induction false} ResponsesArePresent(apis: Dict<ApiConfig>, json: JsonCodec, platforms: seq<string>,
                                               query: string, replies: seq<Result<string, string>>,
                                               clock: Clock, n: nat)
    requires n <= |platforms| == |replies|
    ensures Responses(apis, json, platforms, query, replies, clock, n)
         == Present(Outcomes(apis, json, platforms, query, replies, clock), n)
  {
    if n > 0 {
      ResponsesArePresent(apis, json, platforms, query, replies, clock, n - 1);
    }
  }

  /** The calls issued are the positions of the present outcomes. */
  lemma {:induction false} IssuedArePresent(apis: Dict<ApiConfig>, json: JsonCodec, platforms: seq<string>,
                                            query: string, replies: seq<Result<string, string>>,
                                            clock: Clock, n: nat)
    requires n <= |platforms| == |replies|
    ensures IssuedAt(apis, platforms, n) == PresentAt(Outcomes(apis, json, platforms, query, replies, clock), n)
  {
    if n > 0 {
      IssuedArePresent(apis, json, platforms, query, replies, clock, n - 1);
    }
  }

  /** The `results` dict: response `i` stored under the `i`-th requested name. */
  function Labelled(platforms: seq<string>, responses: seq<PlatformResult>): (r: Dict<PlatformResult>)
    requires |responses| <= |platforms|
    ensures r.Valid()
    ensures forall k :: k in r.vals ==> k in platforms[..|responses|]
  {
    if responses == [] then Empty()
    else
      var n := |responses|;
      var prev := Labelled(platforms, responses[..n - 1]);
      assert forall k :: k in platforms[..n - 1] ==> k in platforms[..n];
      prev.Put(platforms[n - 1], responses[n - 1])
  }

  /** With distinct names, every slot holds its own response and the names
      after the last response get nothing. */
  lemma {:induction false} LabelledSlots(platforms: seq<string>, responses: seq<PlatformResult>)
    requires |responses| <= |platforms|
    requires forall i, j :: 0 <= i < j < |platforms| ==> platforms[i] != platforms[j]
    ensures forall i :: 0 <= i < |responses| ==> Labelled(platforms, responses).Get(platforms[i]) == Some(responses[i])
    ensures forall i :: |responses| <= i < |platforms| ==> Labelled(platforms, responses).Get(platforms[i]) == None
  {
    if responses != [] {
      var n := |responses|;
      var front := responses[..n - 1];
      LabelledSlots(platforms, front);
      var prev := Labelled(platforms, front);
      var d := Labelled(platforms, responses);
      assert d == prev.Put(platforms[n - 1], responses[n - 1]);
      forall i | 0 <= i < n
        ensures d.Get(platforms[i]) == Some(responses[i])
      {
        if i < n - 1 {
          assert platforms[i] != platforms[n - 1];
          assert front[i] == responses[i];
        }
      }
      forall i | n <= i < |platforms|
        ensures d.Get(platforms[i]) == None
      {
        assert platforms[n - 1] != platforms[i];
      }
    }
  }

  /** What `orchestrate_multi_query` returns. */
  datatype MultiQuery = MultiQuery(
    query: string,
    platformsQueried: seq<string>,
    results: Dict<PlatformResult>,
    timestamp: string)

  /** `orchestrate_multi_query(query, platforms)` as a value. */
  function Orchestrated(apis: Dict<ApiConfig>, json: JsonCodec, query: string, platforms: Option<seq<string>>,
                        replies: seq<Result<string, string>>, clock: Clock): (m: MultiQuery)
    requires |replies| == |Requested(platforms)|
    ensures m.platformsQueried == Requested(platforms) && m.query == query
  {
    var names := Requested(platforms);
    ResponsesFollowCalls(apis, json, names, query, replies, clock, |names|);
    var responses := Responses(apis, json, names, query, replies, clock, |names|);
    MultiQuery(query, names, Labelled(names, responses), clock.iso)
  }

  /** No result without a call: at most one slot per call issued, and none at
      all when neither Perplexity nor Abacus has a key. */
  lemma SlotsAtMostCalls(apis: Dict<ApiConfig>, json: JsonCodec, query: string, platforms: Option<seq<string>>,
                         replies: seq<Result<string, string>>, clock: Clock)
    requires |replies| == |Requested(platforms)|
    ensures var names := Requested(platforms);
      Orchestrated(apis, json, query, platforms, replies, clock).results.Size()
        <= |IssuedAt(apis, names, |names|)|
    ensures (forall p :: !Issues(apis, p)) ==>
      Orchestrated(apis, json, query, platforms, replies, clock).results.Size() == 0
  {
    var names := Requested(platforms);
    ResponsesFollowCalls(apis, json, names, query, replies, clock, |names|);
    var responses := Responses(apis, json, names, query, replies, clock, |names|);
    LabelledSize(names, responses);
  }

  lemma {:induction false} LabelledSize(platforms: seq<string>, responses: seq<PlatformResult>)
    requires |responses| <= |platforms|
    ensures Labelled(platforms, responses).Size() <= |responses|
  {
    if responses != [] {
      LabelledSize(platforms, responses[..|responses| - 1]);
    }
  }

  /** When every requested name is distinct and gets its call, each result
      sits under its own platform. */
  lemma AllIssuedLabelsMatch(apis: Dict<ApiConfig>, json: JsonCodec, query: string, platforms: Option<seq<string>>,
                             replies: seq<Result<string, string>>, clock: Clock)
    requires |replies| == |Requested(platforms)|
    requires forall i, j :: 0 <= i < j < |Requested(platforms)| ==> Requested(platforms)[i] != Requested(platforms)[j]
    requires forall p :: p in Requested(platforms) ==> Issues(apis, p)
    ensures var names := Requested(platforms);
      forall i :: 0 <= i < |names| ==>
        Orchestrated(apis, json, query, platforms, replies, clock).results.Get(names[i])
          == Some(Respond(apis, json, names[i], query, replies[i], clock))
  {
    var names := Requested(platforms);
    var calls := IssuedAt(apis, names, |names|);
    ResponsesFollowCalls(apis, json, names, query, replies, clock, |names|);
    var responses := Responses(apis, json, names, query, replies, clock, |names|);
    forall i | 0 <= i < |names| ensures Issues(apis, names[i]) {
      assert names[i] in names;
    }
    AllIssued(apis, names, |names|);
    LabelledSlots(names, responses);
    var results := Orchestrated(apis, json, query, platforms, replies, clock).results;
    assert results == Labelled(names, responses);
    forall i | 0 <= i < |names|
      ensures results.Get(names[i]) == Some(Respond(apis, json, names[i], query, replies[i], clock))
    {
      assert calls[i] == i;
      assert results.Get(names[i]) == Some(responses[i]);
    }
  }

  /** When every name is issued, the calls go out at every position. */
  lemma {:induction false} AllIssued(apis: Dict<ApiConfig>, platforms: seq<string>, n: nat)
    requires n <= |platforms|
    requires forall i :: 0 <= i < n ==> Issues(apis, platforms[i])
    ensures |IssuedAt(apis, platforms, n)| == n
    ensures forall j :: 0 <= j < n ==> IssuedAt(apis, platforms, n)[j] == j
  {
    if n > 0 {
      AllIssued(apis, platforms, n - 1);
      var prev := IssuedAt(apis, platforms, n - 1);
      assert Issues(apis, platforms[n - 1]);
      var r := IssuedAt(apis, platforms, n);
      assert r == prev + [n - 1];
      forall j | 0 <= j < n ensures r[j] == j {
        if j < n - 1 { assert r[j] == prev[j]; }
      }
    }
  }

  /** Labels follow request positions, not calls: with the default platforms,
      no Perplexity key and an Abacus key, the Abacus answer is filed under
      "perplexity" and nothing under "abacus". */
  lemma SkippedPlatformShiftsLabels(apis: Dict<ApiConfig>, json: JsonCodec, query: string,
                                    reply: Result<string, string>, unused: Result<string, string>, clock: Clock)
    requires Queryable(apis)
    requires apis.vals["perplexity"].key == "" && apis.vals["abacus"].key != ""
    ensures var results := Orchestrated(apis, json, query, None, [unused, reply], clock).results;
      && results.keys == ["perplexity"]
      && results.Get("perplexity")
           == Some(SendToAbacus(apis, json, QueryData(query), "multi_query", reply, clock).result)
      && results.Get("abacus") == None
  {
    var names := Requested(None);
    var replies := [unused, reply];
    assert "perplexity" != "abacus" by { assert "perplexity"[0] != "abacus"[0]; }
    assert names == ["perplexity", "abacus"];
    assert !Issues(apis, names[0]) && Issues(apis, names[1]);
    var answer := SendToAbacus(apis, json, QueryData(query), "multi_query", reply, clock).result;
    assert Responses(apis, json, names, query, replies, clock, 0) == [];
    assert Responses(apis, json, names, query, replies, clock, 1) == [];
    assert Respond(apis, json, names[1], query, replies[1], clock) == answer;
    var responses := Responses(apis, json, names, query, replies, clock, 2);
    assert responses == [answer];
    assert responses[..0] == [];
    assert Labelled(names, responses[..0]) == Empty<PlatformResult>();
    var results := Labelled(names, responses);
    assert results == Empty<PlatformResult>().Put("perplexity", answer);
  }

  /** For the first `n` requested names, each outcome that is present stored
      under its own name. */
  function Filed(platforms: seq<string>, outcomes: seq<Option<PlatformResult>>, n: nat): (r: Dict<PlatformResult>)
    requires n <= |platforms| == |outcomes|
    ensures r.Valid()
  {
    if n == 0 then Empty()
    else
      var prev := Filed(platforms, outcomes, n - 1);
      match outcomes[n - 1]
      case Some(v) => prev.Put(platforms[n - 1], v)
      case None => prev
  }

  /** With distinct names, every name among the first `n` holds its own
      outcome and every later name holds nothing. */
  lemma {:induction false} FiledSlots(platforms: seq<string>, outcomes: seq<Option<PlatformResult>>, n: nat)
    requires n <= |platforms| == |outcomes|
    requires forall i, j :: 0 <= i < j < |platforms| ==> platforms[i] != platforms[j]
    ensures forall i :: 0 <= i < n ==> Filed(platforms, outcomes, n).Get(platforms[i]) == outcomes[i]
    ensures forall i :: n <= i < |platforms| ==> Filed(platforms, outcomes, n).Get(platforms[i]) == None
  {
    if n > 0 {
      FiledSlots(platforms, outcomes, n - 1);
      var prev := Filed(platforms, outcomes, n - 1);
      var d := Filed(platforms, outcomes, n);
      if outcomes[n - 1].Some? {
        assert d == prev.Put(platforms[n - 1], outcomes[n - 1].value);
      } else {
        assert d == prev;
      }
      forall i | 0 <= i < |platforms| && i != n - 1
        ensures d.Get(platforms[i]) == prev.Get(platforms[i])
      {
        assert platforms[i] != platforms[n - 1];
      }
      forall i | 0 <= i < n ensures d.Get(platforms[i]) == outcomes[i] {
        if i < n - 1 {
          assert d.Get(platforms[i]) == prev.Get(platforms[i]);
        }
      }
    }
  }

  /** What the call for each requested name produces, `None` where no call
      goes out. */
  function Outcomes(apis: Dict<ApiConfig>, json: JsonCodec, platforms: seq<string>, query: string,
                    replies: seq<Result<string, string>>, clock: Clock): (o: seq<Option<PlatformResult>>)
    requires |platforms| == |replies|
    ensures |o| == |platforms|
  {
    seq(|platforms|, i requires 0 <= i < |platforms| =>
      if Issues(apis, platforms[i]) then Some(Respond(apis, json, platforms[i], query, replies[i], clock)) else None)
  }

  /** The labelling the fan-out evidently intends: each result under the
      name of the platform whose call produced it. */
  function IntendedResults(apis: Dict<ApiConfig>, json: JsonCodec, platforms: seq<string>, query: string,
                           replies: seq<Result<string, string>>, clock: Clock, n: nat): Dict<PlatformResult>
    requires n <= |platforms| == |replies|
  {
    Filed(platforms, Outcomes(apis, json, platforms, query, replies, clock), n)
  }

  /** With distinct names, every platform that was called holds its own
      answer and every other name holds nothing, whichever platforms were
      skipped before it. */
  lemma IntendedLabelsMatch(apis: Dict<ApiConfig>, json: JsonCodec, platforms: seq<string>,
                            query: string, replies: seq<Result<string, string>>,
                            clock: Clock, n: nat)
    requires n <= |platforms| == |replies|
    requires forall i, j :: 0 <= i < j < |platforms| ==> platforms[i] != platforms[j]
    ensures forall i :: 0 <= i < n && Issues(apis, platforms[i]) ==>
      IntendedResults(apis, json, platforms, query, replies, clock, n).Get(platforms[i])
        == Some(Respond(apis, json, platforms[i], query, replies[i], clock))
    ensures forall i :: 0 <= i < |platforms| && (n <= i || !Issues(apis, platforms[i])) ==>
      IntendedResults(apis, json, platforms, query, replies, clock, n).Get(platforms[i]) == None
  {
    var outcomes := Outcomes(apis, json, platforms, query, replies, clock);
    FiledSlots(platforms, outcomes, n);
  }

  /** In the scenario that misfiles the Abacus answer, the intended labelling
      files it under "abacus" and leaves "perplexity" empty. */
  lemma SkippedPlatformIntended(apis: Dict<ApiConfig>, json: JsonCodec, query: string,
                                reply: Result<string, string>, unused: Result<string, string>, clock: Clock)
    requires Queryable(apis)
    requires apis.vals["perplexity"].key == "" && apis.vals["abacus"].key != ""
    ensures var results := IntendedResults(apis, json, DefaultPlatforms, query, [unused, reply], clock, 2);
      && results.Get("abacus")
           == Some(SendToAbacus(apis, json, QueryData(query), "multi_query", reply, clock).result)
      && results.Get("perplexity") == None
  {
    var names := DefaultPlatforms;
    assert "perplexity" != "abacus" by { assert "perplexity"[0] != "abacus"[0]; }
    assert !Issues(apis, names[0]) && Issues(apis, names[1]);
    IntendedLabelsMatch(apis, json, names, query, [unused, reply], clock, 2);
  }

  /** One more requested name: its call's result is appended when a call
      goes out for it. */
  lemma ResponsesStep(apis: Dict<ApiConfig>, json: JsonCodec, platforms: seq<string>, query: string,
                      replies: seq<Result<string, string>>, clock: Clock, i: nat)
    requires i < |platforms| == |replies|
    ensures var p := platforms[i];
      Responses(apis, json, platforms, query, replies, clock, i + 1)
        == if p == "perplexity" && "perplexity" in apis.vals && apis.vals["perplexity"].key != "" then
             Responses(apis, json, platforms, query, replies, clock, i) + [QueryPerplexity(apis, query, "", replies[i]).result]
           else if p == "abacus" && "abacus" in apis.vals && apis.vals["abacus"].key != "" then
             Responses(apis, json, platforms, query, replies, clock, i)
             + [SendToAbacus(apis, json, QueryData(query), "multi_query", replies[i], clock).result]
           else Responses(apis, json, platforms, query, replies, clock, i)
  {
    assert "perplexity" != "abacus" by { assert "perplexity"[0] != "abacus"[0]; }
  }

  /** The first loop of `orchestrate_multi_query`: one call per requested
      name whose vendor has a key, gathered in request order. */
  method IssueCalls(apis: Dict<ApiConfig>, json: JsonCodec, platforms: seq<string>, query: string,
                    replies: seq<Result<string, string>>, clock: Clock)
    returns (responses: seq<PlatformResult>)
    requires Queryable(apis) && |replies| == |platforms|
    ensures responses == Responses(apis, json, platforms, query, replies, clock, |platforms|)
  {
    responses := [];
    var i := 0;
    while i < |platforms|
      invariant 0 <= i <= |platforms|
      invariant responses == Responses(apis, json, platforms, query, replies, clock, i)
    {
      var platform := platforms[i];
      ResponsesStep(apis, json, platforms, query, replies, clock, i);
      if platform == "perplexity" && apis.vals["perplexity"].key != "" {
        responses := responses + [QueryPerplexity(apis, query, "", replies[i]).result];
      } else if platform == "abacus" && apis.vals["abacus"].key != "" {
        responses := responses + [SendToAbacus(apis, json, QueryData(query), "multi_query", replies[i], clock).result];
      }
      i := i + 1;
    }
  }

  /** The second loop of `orchestrate_multi_query`: response `i` goes under
      the `i`-th requested name. */
  method LabelResponses(platforms: seq<string>, responses: seq<PlatformResult>)
    returns (results: Dict<PlatformResult>)
    requires |responses| <= |platforms|
    ensures results == Labelled(platforms, responses)
  {
    results := Empty();
    var j := 0;
    while j < |responses|
      invariant 0 <= j <= |responses|
      invariant results == Labelled(platforms, responses[..j])
    {
      assert responses[..j + 1][..j] == responses[..j];
      results := results.Put(platforms[j], responses[j]);
      j := j + 1;
    }
    assert responses[..j] == responses;
  }

  // ===================== the merged answer =====================

  const MergeHeader: string := "Multi-Platform AI Response:\n\n"

  /** `result.get('response', result.get('processed_data', ''))` */
  function ResponseText(r: PlatformResult): string
  {
    match r
    case Answered(text) => text
    case Processed(text, _) => text
    case Failed(_) => ""
  }

  /** The section one successful platform contributes. */
  function Section(platform: string, r: PlatformResult): string
  {
    Title(platform) + " Response:\n" + ResponseText(r) + "\n\n"
  }

  /** What one result adds to the merged text: nothing for an error. */
  function Contribution(platform: string, r: PlatformResult): string
  {
    if r.Failed? then "" else Section(platform, r)
  }

  /** What `piece` makes of each of the first `n` entries of `results`,
      joined in the dict's order. */
  function Joined(results: Dict<PlatformResult>, piece: (string, PlatformResult) -> string, n: nat): string
    requires results.Valid() && n <= |results.keys|
  {
    if n == 0 then ""
    else
      var k := results.keys[n - 1];
      Joined(results, piece, n - 1) + piece(k, results.vals[k])
  }

  /** The sections of the first `n` results, in the dict's order; error
      results contribute nothing. */
  function Sections(results: Dict<PlatformResult>, n: nat): string
    requires results.Valid() && n <= |results.keys|
  {
    Joined(results, Contribution, n)
  }

  /** `process_multi_platform_results` on a `results` dict. */
  function Merged(results: Dict<PlatformResult>): (text: string)
    requires results.Valid()
    ensures |MergeHeader| <= |text| && text[..|MergeHeader|] == MergeHeader
    ensures results.keys == [] ==> text == MergeHeader
  {
    var sections := Sections(results, |results.keys|);
    assert (MergeHeader + sections)[..|MergeHeader|] == MergeHeader;
    MergeHeader + sections
  }

  /** Adding a new key leaves the pieces of the entries before it alone. */
  lemma {:induction false} JoinedPrefix(results: Dict<PlatformResult>, piece: (string, PlatformResult) -> string,
                                        k: string, r: PlatformResult, n: nat)
    requires results.Valid() && k !in results.vals && n <= |results.keys|
    ensures Joined(results.Put(k, r), piece, n) == Joined(results, piece, n)
  {
    if n > 0 {
      JoinedPrefix(results, piece, k, r, n - 1);
      var next := results.Put(k, r);
      var key := results.keys[n - 1];
      assert key in results.vals;
      assert next.keys[n - 1] == key && next.vals[key] == results.vals[key];
    }
  }

  /** Adding a new key appends its piece. */
  lemma JoinedPut(results: Dict<PlatformResult>, piece: (string, PlatformResult) -> string, k: string, r: PlatformResult)
    requires results.Valid() && k !in results.vals
    ensures Joined(results.Put(k, r), piece, |results.keys| + 1) == Joined(results, piece, |results.keys|) + piece(k, r)
  {
    var next := results.Put(k, r);
    var n := |results.keys|;
    JoinedPrefix(results, piece, k, r, n);
    assert next.keys[n] == k && next.vals[k] == r;
  }

  /** A new platform's result adds what it contributes at the end: its
      section, or nothing when it is an error. */
  lemma MergedPut(results: Dict<PlatformResult>, k: string, r: PlatformResult)
    requires results.Valid() && k !in results.vals
    ensures Merged(results.Put(k, r)) == Merged(results) + Contribution(k, r)
  {
    var before := Sections(results, |results.keys|);
    var added := Contribution(k, r);
    JoinedPut(results, Contribution, k, r);
    AppendAssociative(MergeHeader, before, added);
  }

  /** String concatenation is associative. */
  lemma AppendAssociative(a: string, b: string, c: string)
    ensures a + (b + c) == (a + b) + c
  {
  }

  /** One more entry of the dict: an error leaves the text as it is, an
      answer appends its section. */
  lemma SectionsStep(text: string, d: Dict<PlatformResult>, i: nat)
    requires d.Valid() && i < |d.keys|
    ensures var k := d.keys[i];
      text + Sections(d, i + 1)
        == if d.vals[k].Failed? then text + Sections(d, i)
           else (text + Sections(d, i)) + Section(k, d.vals[k])
  {
    var k := d.keys[i];
    var before := Sections(d, i);
    if d.vals[k].Failed? {
      assert Sections(d, i + 1) == before + "";
      assert before + "" == before;
    } else {
      assert Sections(d, i + 1) == before + Section(k, d.vals[k]);
      assert text + (before + Section(k, d.vals[k])) == (text + before) + Section(k, d.vals[k]);
    }
  }

  /** The loop of `process_multi_platform_results`: the section of every
      answer in `d`, in the dict's order, appended to `text`. */
  method AppendSections(text: string, d: Dict<PlatformResult>) returns (combined: string)
    requires d.Valid()
    ensures combined == text + Sections(d, |d.keys|)
  {
    combined := text;
    assert combined == text + Sections(d, 0);
    var i := 0;
    while i < |d.keys|
      invariant 0 <= i <= |d.keys|
      invariant combined == text + Sections(d, i)
    {
      var platform := d.keys[i];
      var result := d.vals[platform];
      SectionsStep(text, d, i);
      if !result.Failed? {
        combined := combined + Section(platform, result);
      }
      i := i + 1;
    }
  }

  /** An error result leaves the merged text exactly as it was. */
  lemma ErrorAddsNothing(results: Dict<PlatformResult>, k: string, e: string)
    requires results.Valid() && k !in results.vals
    ensures Merged(results.Put(k, Failed(e))) == Merged(results)
  {
    MergedPut(results, k, Failed(e));
    assert Contribution(k, Failed(e)) == "";
  }

  /** A successful result appends its titled section. */
  lemma AnswerAppendsSection(results: Dict<PlatformResult>, k: string, r: PlatformResult)
    requires results.Valid() && k !in results.vals && !r.Failed?
    ensures Merged(results.Put(k, r)) == Merged(results) + Title(k) + " Response:\n" + ResponseText(r) + "\n\n"
  {
    MergedPut(results, k, r);
    AppendSection(Merged(results), Title(k), " Response:\n", ResponseText(r), "\n\n");
  }

  /** Appending a section piece by piece is appending it whole. */
  lemma AppendSection(text: string, name: string, tag: string, body: string, gap: string)
    ensures text + (name + tag + body + gap) == text + name + tag + body + gap
  {
  }

  // ===================== space configs and handoffs =====================

  /** The config `create_space_config` builds. */
  datatype SpaceConfig = SpaceConfig(
    name: string,
    personality: string,
    purpose: string,
    owner: string,
    created: string,
    tone: string,
    codeLimit: int,
    locationContext: string,
    memoryAccess: bool,
    learningEnabled: bool)

  function SpaceConfigValue(c: SpaceConfig): PyValue
  {
    PDict(Dict(
      ["name", "personality", "purpose", "owner", "created", "preferences", "memory_access", "learning_enabled"],
      map["name" := PStr(c.name),
          "personality" := PStr(c.personality),
          "purpose" := PStr(c.purpose),
          "owner" := PStr(c.owner),
          "created" := PStr(c.created),
          "preferences" := PDict(Dict(
            ["tone", "code_limit", "location_context"],
            map["tone" := PStr(c.tone),
                "code_limit" := PInt(c.codeLimit),
                "location_context" := PStr(c.locationContext)])),
          "memory_access" := PBool(c.memoryAccess),
          "learning_enabled" := PBool(c.learningEnabled)]))
  }

  /** `d.get(k, default)` */
  function GetOr(d: Dict<PyValue>, k: string, default: PyValue): (v: PyValue)
    ensures k in d.vals ==> v == d.vals[k]
    ensures k !in d.vals ==> v == default
  {
    if k in d.vals then d.vals[k] else default
  }

  /** The package `handoff_to_deepagent` builds. */
  datatype Handoff = Handoff(
    projectName: PyValue,
    description: PyValue,
    codeBase: PyValue,
    requirements: PyValue,
    instructions: string,
    userPreferences: PyValue,
    memoryContext: Dict<PyValue>,
    timestamp: string,
    handoffType: string)

  /** The handoff package: the project's fields with their defaults, the
      profile, and the ten most recently inserted memory entries. */
  function HandoffPackage(preferences: Preferences, memory: Dict<PyValue>, projectData: Dict<PyValue>,
                          instructions: string, clock: Clock): (h: Handoff)
    requires memory.Valid()
    ensures h.memoryContext.Valid() && h.memoryContext.keys == memory.LastKeys(10)
    ensures forall k :: k in h.memoryContext.vals ==> memory.Get(k) == Some(h.memoryContext.vals[k])
    ensures h.projectName == if "name" in projectData.vals then projectData.vals["name"] else PStr("RandyAI_Project")
    ensures h.description == if "description" in projectData.vals then projectData.vals["description"] else PStr("")
    ensures h.codeBase == if "code" in projectData.vals then projectData.vals["code"] else PStr("")
    ensures h.requirements == if "requirements" in projectData.vals then projectData.vals["requirements"] else PList([])
    ensures projectData.Size() == 0 && projectData.Valid() ==>
      h.projectName == PStr("RandyAI_Project") && h.description == PStr("")
      && h.codeBase == PStr("") && h.requirements == PList([])
    ensures h.userPreferences == PreferencesValue(preferences) && h.timestamp == clock.iso
    ensures h.handoffType == "development_continuation" && h.instructions == instructions
  {
    Handoff(
      GetOr(projectData, "name", PStr("RandyAI_Project")),
      GetOr(projectData, "description", PStr("")),
      GetOr(projectData, "code", PStr("")),
      GetOr(projectData, "requirements", PList([])),
      instructions,
      PreferencesValue(preferences),
      memory.LastEntries(10),
      clock.iso,
      "development_continuation")
  }

  /** An overwritten key keeps its old place, so a key rewritten just now but
      first inserted more than ten keys ago is not in the handoff's memory
      context. */
  lemma RewrittenOldKeyNotInContext(preferences: Preferences, memory: Dict<PyValue>, projectData: Dict<PyValue>,
                                    instructions: string, clock: Clock, i: nat, v: PyValue)
    requires memory.Valid() && i + 10 < |memory.keys|
    ensures memory.keys[i] !in
      HandoffPackage(preferences, memory.Put(memory.keys[i], v), projectData, instructions, clock).memoryContext.vals
  {
    var k := memory.keys[i];
    var next := memory.Put(k, v);
    assert next.keys == memory.keys;
    var last := next.LastKeys(10);
    assert last == memory.keys[|memory.keys| - 10..];
    forall j | 0 <= j < |last| ensures last[j] != k {
      assert last[j] == memory.keys[|memory.keys| - 10 + j];
    }
  }

  function HandoffValue(h: Handoff): PyValue
  {
    PDict(Dict(
      ["project_name", "description", "code_base", "requirements", "instructions",
       "user_preferences", "memory_context", "timestamp", "handoff_type"],
      map["project_name" := h.projectName,
          "description" := h.description,
          "code_base" := h.codeBase,
          "requirements" := h.requirements,
          "instructions" := PStr(h.instructions),
          "user_preferences" := h.userPreferences,
          "memory_context" := PDict(h.memoryContext),
          "timestamp" := PStr(h.timestamp),
          "handoff_type" := PStr(h.handoffType)]))
  }

  /** The name of the handoff file: the project's name (or "project") and the
      second the handoff is made. */
  function HandoffFile(json: JsonCodec, projectData: Dict<PyValue>, clock: Clock): (name: string)
    ensures |name| > 13 && name[..8] == "handoff_" && name[|name| - 5..] == ".json"
  {
    "handoff_" + json.str(GetOr(projectData, "name", PStr("project"))) + "_" + clock.secondStamp + ".json"
  }

  /** What `handoff_to_deepagent` returns. */
  datatype HandoffOutcome =
    | HandedOff(handoffFile: string, packageSize: nat, instructions: string)
    | HandoffFailed(error: string)

  // ===================== the integrator =====================

  class MultiPlatformIntegrator {
    const randy: RandyAI
    /** `self.apis` */
    var apis: Dict<ApiConfig>

    ghost predicate Valid()
      reads this, randy
    {
      randy.Valid() && Queryable(apis)
    }

    /** `MultiPlatformIntegrator(randy_ai)` */
    constructor (randyAi: RandyAI)
      requires randyAi.Valid()
      ensures Valid() && randy == randyAi
      ensures apis.keys == ["perplexity", "abacus", "deepagent"]
      ensures apis.Get("perplexity") == Some(PerplexityApi)
      ensures apis.Get("abacus") == Some(AbacusApi)
      ensures apis.Get("deepagent") == Some(DeepAgentApi)
    {
      randy := randyAi;
      apis := Empty();
      new;
      SetupApis();
    }

    /** `setup_apis()`: registers the three vendors, each with an empty key and
        active, and touches no other entry. */
    method SetupApis()
      requires apis.Valid()
      modifies this`apis
      ensures apis.Valid()
      ensures apis.Get("perplexity") == Some(PerplexityApi)
      ensures apis.Get("abacus") == Some(AbacusApi)
      ensures apis.Get("deepagent") == Some(DeepAgentApi)
      ensures forall k :: k != "perplexity" && k != "abacus" && k != "deepagent" ==> apis.Get(k) == old(apis.Get(k))
      ensures old(apis.Size()) == 0 ==> apis.keys == ["perplexity", "abacus", "deepagent"]
    {
      assert "perplexity"[0] != "abacus"[0] && "perplexity"[0] != "deepagent"[0] && "abacus"[0] != "deepagent"[0];
      PutThree(apis, "perplexity", PerplexityApi, "abacus", AbacusApi, "deepagent", DeepAgentApi);
      apis := apis.Put("perplexity", PerplexityApi);
      apis := apis.Put("abacus", AbacusApi);
      apis := apis.Put("deepagent", DeepAgentApi);
    }

    /** `configure_api(service, api_key)`: for a registered service, sets its
        key in place and saves it to memory; otherwise changes nothing. */
    method ConfigureApi(service: string, apiKey: string) returns (ok: bool)
      requires Valid()
      modifies this`apis, randy`db, randy`memory
      ensures Valid()
      ensures ok <==> service in old(apis.vals)
      ensures ok ==>
        && apis == old(apis).Put(service, old(apis.vals[service]).(key := apiKey))
        && apis.keys == old(apis.keys)
        && randy.memory == old(randy.memory).Put("api_key_" + service, PStr(apiKey))
        && randy.db == old(randy.db).(memoryRows := SaveRow(old(randy.db.memoryRows), "api_key_" + service,
                                                               Encode(randy.json, PStr(apiKey)), "credentials"))
      ensures !ok ==> apis == old(apis) && randy.db == old(randy.db) && randy.memory == old(randy.memory)
    {
      if service in apis.vals {
        apis := apis.Put(service, apis.vals[service].(key := apiKey));
        randy.SaveMemory("api_key_" + service, PStr(apiKey), "credentials");
        ok := true;
      } else {
        ok := false;
      }
    }

    /** `get_integration_status()` */
    method GetIntegrationStatus() returns (status: Dict<ApiStatus>)
      requires Valid()
      ensures status == IntegrationStatus(apis)
    {
      status := Empty();
      var i := 0;
      while i < |apis.keys|
        invariant 0 <= i <= |apis.keys|
        invariant status.Valid() && status.keys == apis.keys[..i]
        invariant forall k :: k in status.vals ==> status.vals[k] == StatusOf(apis.vals[k])
      {
        var name := apis.keys[i];
        assert name !in apis.keys[..i];
        assert apis.keys[..i + 1] == apis.keys[..i] + [name];
        status := status.Put(name, StatusOf(apis.vals[name]));
        i := i + 1;
      }
      assert apis.keys[..i] == apis.keys;
    }

    /** `orchestrate_multi_query(query, platforms)`. `replies[i]` is what the
        vendor behind the `i`-th requested name answers, used only when its
        call is issued. */
    method OrchestrateMultiQuery(query: string, platforms: Option<seq<string>>,
                                 replies: seq<Result<string, string>>, clock: Clock)
      returns (m: MultiQuery)
      requires Valid()
      requires |replies| == |Requested(platforms)|
      ensures m == Orchestrated(apis, randy.json, query, platforms, replies, clock)
      ensures m.results.Size() <= |IssuedAt(apis, m.platformsQueried, |m.platformsQueried|)|
    {
      var names := Requested(platforms);
      var responses := IssueCalls(apis, randy.json, names, query, replies, clock);
      ResponsesFollowCalls(apis, randy.json, names, query, replies, clock, |names|);
      var results := LabelResponses(names, responses);
      m := MultiQuery(query, names, results, clock.iso);
      SlotsAtMostCalls(apis, randy.json, query, platforms, replies, clock);
    }

    /** `create_space_config(space_name, personality, purpose)` */
    method CreateSpaceConfig(spaceName: string, personality: string, purpose: string, clock: Clock)
      returns (config: SpaceConfig)
      requires Valid()
      modifies randy`db, randy`memory
      ensures Valid()
      ensures config == SpaceConfig(spaceName, personality, purpose, "Randy Jordan", clock.iso,
                                    randy.preferences.tonePreference, randy.preferences.codeLimit,
                                    randy.preferences.location, true, true)
      ensures randy.memory == old(randy.memory).Put("space_config_" + spaceName, SpaceConfigValue(config))
      ensures randy.db == old(randy.db).(memoryRows := SaveRow(old(randy.db.memoryRows), "space_config_" + spaceName,
                                                               Encode(randy.json, SpaceConfigValue(config)), "spaces"))
    {
      config := SpaceConfig(spaceName, personality, purpose, "Randy Jordan", clock.iso,
                            randy.preferences.tonePreference, randy.preferences.codeLimit,
                            randy.preferences.location, true, true);
      randy.SaveMemory("space_config_" + spaceName, SpaceConfigValue(config), "spaces");
    }

    /** `handoff_to_deepagent(project_data, instructions)`. Writing the file is
        outside the model: `writeError` is the text of the exception the write
        raised, if it raised. */
    method HandoffToDeepAgent(projectData: Dict<PyValue>, instructions: string, clock: Clock,
                              writeError: Option<string>)
      returns (outcome: HandoffOutcome)
      requires Valid()
      modifies randy`db, randy`memory
      ensures Valid()
      ensures writeError.Some? ==>
        && outcome == HandoffFailed("Handoff error: " + writeError.value)
        && randy.db == old(randy.db) && randy.memory == old(randy.memory)
      ensures writeError.None? ==>
        var package := HandoffValue(HandoffPackage(randy.preferences, old(randy.memory), projectData, instructions, clock));
        var filename := HandoffFile(randy.json, projectData, clock);
        && outcome == HandedOff(filename, |randy.json.dumps(package)|, "Project handed off to DeepAgent. File: " + filename)
        && randy.memory == old(randy.memory).Put("handoff_" + filename, package)
        && randy.db == old(randy.db).(memoryRows := SaveRow(old(randy.db.memoryRows), "handoff_" + filename,
                                                              Encode(randy.json, package), "handoffs"))
    {
      var package := HandoffValue(HandoffPackage(randy.preferences, randy.memory, projectData, instructions, clock));
      var filename := HandoffFile(randy.json, projectData, clock);
      if writeError.Some? {
        outcome := HandoffFailed("Handoff error: " + writeError.value);
      } else {
        randy.SaveMemory("handoff_" + filename, package, "handoffs");
        outcome := HandedOff(filename, |randy.json.dumps(package)|,
                             "Project handed off to DeepAgent. File: " + filename);
      }
    }
  }

  // ===================== the enhanced assistant =====================

  /** `EnhancedRandyAI`: the assistant together with its integrator. */
  class EnhancedRandyAI {
    const baseAi: RandyAI
    const integrator: MultiPlatformIntegrator

    constructor (base: RandyAI)
      requires base.Valid()
      ensures baseAi == base && integrator.randy == base && integrator.Valid()
      ensures integrator.apis.keys == ["perplexity", "abacus", "deepagent"]
      ensures fresh(integrator)
    {
      baseAi := base;
      integrator := new MultiPlatformIntegrator(base);
    }

    /** `process_multi_platform_results(results)`: the header, then one
        section per non-error result in the dict's order. */
    method ProcessMultiPlatformResults(results: MultiQuery) returns (combined: string)
      requires results.results.Valid()
      ensures combined == Merged(results.results)
    {
      combined := AppendSections(MergeHeader, results.results);
    }
  }
}
