/**
 * The streaming client: configuration and parameter merging, the endpoint
 * URL, the mapping of parser notices to outward events, the response
 * status check, and the reconnect counter with its linear back-off.
 */
module Streaming {
  import opened Wrappers
  import opened Js
  import opened Framing
  import opened Tweets

  // ----- configuration --------------------------------------------------------

  const StreamBase: string := "https://stream.twitter.com/1.1"
  const UserStreamBase: string := "https://userstream.twitter.com/1.1"
  const SiteStreamBase: string := "https://sitestream.twitter.com/1.1"

  function DefaultUrls(): Obj {
    map[
      "request_token_url" := JStr("https://api.twitter.com/oauth/request_token"),
      "access_token_url" := JStr("https://api.twitter.com/oauth/access_token"),
      "authenticate_url" := JStr("https://api.twitter.com/oauth/authenticate"),
      "authorize_url" := JStr("https://api.twitter.com/oauth/authorize"),
      "stream_base" := JStr(StreamBase),
      "user_stream_base" := JStr(UserStreamBase),
      "site_stream_base" := JStr(SiteStreamBase)
    ]
  }

  function DefaultHeaders(): Obj {
    map["Accept" := JStr("*/*"), "User-Agent" := JStr("tstream")]
  }

  function DefaultConfig(): Obj {
    map[
      "consumer_key" := JNull,
      "consumer_secret" := JNull,
      "access_token_key" := JNull,
      "access_token_secret" := JNull,
      "urls" := JObj(DefaultUrls()),
      "headers" := JObj(DefaultHeaders())
    ]
  }

  /**
   * `_.extend(default_config, config)`: every top-level key the caller gives
   * replaces the default as a whole; the others keep their defaults.
   */
  function MergeConfig(config: Obj): (r: Obj)
    ensures r.Keys == DefaultConfig().Keys + config.Keys
    ensures forall k :: k in config ==> r[k] == config[k]
    ensures forall k :: k in DefaultConfig() && k !in config ==> r[k] == DefaultConfig()[k]
  {
    Extend(DefaultConfig(), config)
  }

  // ----- the streaming endpoint -----------------------------------------------

  /** The `urls` key a streamMethod's base comes from. */
  function BaseKey(streamMethod: string): string {
    if streamMethod == "user" then "user_stream_base"
    else if streamMethod == "site" then "site_stream_base"
    else "stream_base"
  }

  /** `this.config.urls[...]`: the prefix the method selects; throws when `urls` is `null`. */
  function EndpointBase(config: Obj, streamMethod: string): Result<Option<Json>, string> {
    var urls := if "urls" in config then Some(config["urls"]) else None;
    if streamMethod == "user" || streamMethod == "site" then GetProp(urls, streamMethod + "_stream_base")
    else GetProp(urls, "stream_base")
  }

  /** `prefix + '/' + escape(streamMethod) + '.json'`. */
  function StreamingEndpoint(config: Obj, streamMethod: string): Result<string, string> {
    var base :- EndpointBase(config, streamMethod);
    Success(ToJsString(base) + "/" + Escape(streamMethod) + ".json")
  }

  /**
   * The endpoint is the base under the streamMethod's key (`user_stream_base`,
   * `site_stream_base`, or `stream_base` for any other streamMethod), then "/",
   * the escaped method and ".json"; a missing base reads "undefined".
   */
  lemma EndpointSelectsBase(config: Obj, streamMethod: string, urls: Obj)
    requires "urls" in config && config["urls"] == JObj(urls)
    ensures StreamingEndpoint(config, streamMethod) ==
            Success(ToJsString(if BaseKey(streamMethod) in urls then Some(urls[BaseKey(streamMethod)]) else None)
                    + "/" + Escape(streamMethod) + ".json")
  {
    var key := BaseKey(streamMethod);
    assert streamMethod == "user" || streamMethod == "site" ==> streamMethod + "_stream_base" == key;
    assert EndpointBase(config, streamMethod) == Success(if key in urls then Some(urls[key]) else None);
  }

  /** Reading a base from a `null` `urls` throws, whatever the streamMethod. */
  lemma NullUrlsThrow(config: Obj, streamMethod: string)
    requires "urls" in config && config["urls"] == JNull
    ensures StreamingEndpoint(MergeConfig(config), streamMethod) == Failure(TypeError)
  {
  }

  /** The three streaming bases among the defaults, by the method that selects them. */
  lemma DefaultBases(streamMethod: string)
    ensures BaseKey(streamMethod) in DefaultUrls()
    ensures DefaultUrls()[BaseKey(streamMethod)] ==
            JStr(if streamMethod == "user" then UserStreamBase else if streamMethod == "site" then SiteStreamBase else StreamBase)
  {
  }

  /** An unsupplied `urls` keeps the default URLs. */
  lemma DefaultUrlsKept(config: Obj)
    requires "urls" !in config
    ensures "urls" in MergeConfig(config) && MergeConfig(config)["urls"] == JObj(DefaultUrls())
  {
  }

  /** With the default URLs, the endpoint is the selected default base, "/", the escaped method and ".json". */
  lemma DefaultEndpoint(config: Obj, streamMethod: string)
    requires "urls" !in config
    ensures StreamingEndpoint(MergeConfig(config), streamMethod) ==
            Success((if streamMethod == "user" then UserStreamBase else if streamMethod == "site" then SiteStreamBase else StreamBase)
                    + "/" + Escape(streamMethod) + ".json")
  {
    DefaultUrlsKept(config);
    EndpointSelectsBase(MergeConfig(config), streamMethod, DefaultUrls());
    DefaultBases(streamMethod);
  }

  /** With the default URLs, any other method made of kept characters is a path under the generic host. */
  lemma DefaultGenericEndpoint(config: Obj, streamMethod: string)
    requires "urls" !in config
    requires streamMethod != "user" && streamMethod != "site"
    requires forall i :: 0 <= i < |streamMethod| ==> Unescaped(streamMethod[i])
    ensures StreamingEndpoint(MergeConfig(config), streamMethod) == Success("https://stream.twitter.com/1.1/" + streamMethod + ".json")
  {
    DefaultEndpoint(config, streamMethod);
    EscapeKeepsSafeText(streamMethod);
    assert StreamBase + "/" == "https://stream.twitter.com/1.1/";
  }

  /**
   * The merge is shallow: a caller `urls` object replaces all default URLs,
   * so a base it does not name reads "undefined" (for instance
   * "undefined/user.json" when it lacks `user_stream_base`).
   */
  lemma CallerUrlsReplaceDefaults(config: Obj, urls: Obj, streamMethod: string)
    requires "urls" in config && config["urls"] == JObj(urls)
    requires BaseKey(streamMethod) !in urls
    ensures StreamingEndpoint(MergeConfig(config), streamMethod) == Success("undefined/" + Escape(streamMethod) + ".json")
  {
    var c := MergeConfig(config);
    assert c["urls"] == JObj(urls);
    EndpointSelectsBase(c, streamMethod, urls);
    assert ToJsString(None) + "/" == "undefined/";
  }

  // ----- stream parameters ----------------------------------------------------

  /** The second argument of `stream`. */
  datatype ParamsArg = ParamsObject(obj: Obj) | ParamsFunction | ParamsNull | ParamsAbsent

  function DefaultParams(): Obj {
    map["stall_warnings" := JNull]
  }

  /** Lines 60-63: a function given as `params` becomes the callback and `params` becomes `null`. */
  function ShuffleArgs(params: ParamsArg, callbackIsFunction: bool): (ParamsArg, bool) {
    if params == ParamsFunction then (ParamsNull, true) else (params, callbackIsFunction)
  }

  /** `_.extend(default_params, params)`; `null`, `undefined` and functions add no keys. */
  function MergeParams(params: ParamsArg): Obj {
    match params
    case ParamsObject(o) => Extend(DefaultParams(), o)
    case _ => DefaultParams()
  }

  /**
   * The parameters sent: every caller key with the caller's value, plus
   * `stall_warnings: null` unless the caller gave it; only the defaults when
   * `params` is not an object. The callback runs exactly when one of the two
   * arguments is a function.
   */
  lemma StreamParamsMerge(params: ParamsArg, callbackIsFunction: bool)
    ensures var p := MergeParams(ShuffleArgs(params, callbackIsFunction).0);
            (params.ParamsObject? ==>
               p.Keys == params.obj.Keys + {"stall_warnings"}
               && (forall k :: k in params.obj ==> p[k] == params.obj[k])
               && ("stall_warnings" !in params.obj ==> p["stall_warnings"] == JNull))
            && (!params.ParamsObject? ==> p == map["stall_warnings" := JNull])
    ensures ShuffleArgs(params, callbackIsFunction).1 <==> params == ParamsFunction || callbackIsFunction
  {
  }

  // ----- events ---------------------------------------------------------------

  /** What an outward event carries; `Undefined` is JavaScript's `undefined`. */
  datatype Payload = Undefined | Value(json: Json) | ErrorValue(message: string)

  datatype Event = Event(name: string, payload: Payload)

  /** Lines 86-93: a tweet is re-emitted as 'data', a special as `data.type` with `data.meta`. */
  function ToEvent(n: Notice): Event {
    match n
    case Tweet(t) => Event("data", Value(JObj(t)))
    case Special(s) => Event(s.Type(), match s.MetaField() case None => Undefined case Some(m) => Value(m))
  }

  function ToEvents(ns: seq<Notice>): (r: seq<Event>)
    ensures |r| == |ns| && forall i :: 0 <= i < |ns| ==> r[i] == ToEvent(ns[i])
  {
    if ns == [] then [] else [ToEvent(ns[0])] + ToEvents(ns[1..])
  }

  /**
   * The outward event of one parsed frame: 'data' for a tweet, the key's name
   * and value for a special key, 'user-event' with the object, and 'unknown'
   * with an undefined payload (the parser stores the object under `data`, not
   * `meta`). No frame can raise 'error', 'end' or 'close'.
   */
  lemma EventOfParsedFrame(o: Obj)
    ensures IsTweet(o) ==> ToEvent(Classify(o)) == Event("data", Value(JObj(o)))
    ensures forall j :: 0 <= j < |SpecialKeys| && !IsTweet(o) && FirstSpecialKey(o, j) ==>
              ToEvent(Classify(o)) == Event(SpecialKeys[j], Value(o[SpecialKeys[j]]))
    ensures !IsTweet(o) && NoSpecialKey(o) && IsUserEvent(o) ==>
              ToEvent(Classify(o)) == Event(UserEvent, Value(JObj(o)))
    ensures !IsTweet(o) && NoSpecialKey(o) && !IsUserEvent(o) ==>
              ToEvent(Classify(o)) == Event("unknown", Undefined)
    ensures ToEvent(Classify(o)).name !in {"error", "end", "close"}
  {
    ClassifyOutcomes(o);
    ClassifyIsFirstMatch(o);
  }

  // ----- the response ---------------------------------------------------------

  /** The listeners attached to a response. */
  datatype Handler = DataHandler | ErrorHandler | EndHandler | CloseHandler

  /** Line 120: any status above 200 counts as a failure. */
  predicate IsErrorStatus(status: int) {
    status > 200
  }

  /** The events a response emits at once, and the handlers it gets. */
  function OnResponse(status: int): (seq<Event>, seq<Handler>) {
    var errors := if IsErrorStatus(status) then [Event("error", ErrorValue("HTTP " + IntToString(status)))] else [];
    (errors, [DataHandler, ErrorHandler, EndHandler, CloseHandler])
  }

  /**
   * A status above 200 (201-299 included) emits one 'error' whose message is
   * "HTTP " followed by the status's digits; any other status emits nothing.
   * The four handlers are attached either way, provided an 'error' listener
   * is registered (an unheard 'error' makes `emit` throw before they are).
   */
  lemma ResponseStatusCheck(status: int)
    ensures OnResponse(status).1 == [DataHandler, ErrorHandler, EndHandler, CloseHandler]
    ensures |OnResponse(status).0| == if status > 200 then 1 else 0
    ensures status > 200 ==>
              var e := OnResponse(status).0[0];
              e.name == "error" && e.payload.ErrorValue? && |e.payload.message| > 5
              && e.payload.message[..5] == "HTTP " && DigitsValue(e.payload.message[5..]) == status
  {
    if status > 200 {
      var m := "HTTP " + IntToString(status);
      NatToStringRoundTrip(status);
      assert m[5..] == NatToString(status);
    }
  }

  // ----- reconnecting ---------------------------------------------------------

  const ResetWindow: int := 120000
  const MaxReconnects: int := 10
  const DelayStep: int := 1500

  /**
   * The count after one `reConnect`: one more, unless the second clock
   * reading is more than the window past the first (the timestamp just
   * written), which resets it to 0.
   */
  function NextCount(count: int, t1: int, t2: int): int {
    if t2 > t1 + ResetWindow then 0 else count + 1
  }

  /** The `setTimeout` delay for a count, or nothing once the count is above the ceiling. */
  function DelayFor(count: int): Option<int> {
    if count > MaxReconnects then None else Some(count * DelayStep)
  }

  /** Reset happens only when the two readings of one call are more than the window apart. */
  lemma NextCountSpec(count: int, t1: int, t2: int)
    ensures NextCount(count, t1, t2) == 0 <==> t2 - t1 > ResetWindow || count == -1
    ensures t2 - t1 <= ResetWindow ==> NextCount(count, t1, t2) == count + 1
    ensures DelayFor(NextCount(count, t1, t2)).Some? <==> NextCount(count, t1, t2) <= MaxReconnects
  {
  }

  /** The delays of successive `reConnect` calls, one pair of clock readings per call. */
  function Delays(count: int, clocks: seq<(int, int)>): (r: seq<Option<int>>)
    ensures |r| == |clocks|
    decreases |clocks|
  {
    if clocks == [] then []
    else
      var c := NextCount(count, clocks[0].0, clocks[0].1);
      [DelayFor(c)] + Delays(c, clocks[1..])
  }

  /** The count after successive `reConnect` calls. */
  function CountAfter(count: int, clocks: seq<(int, int)>): int
    decreases |clocks|
  {
    if clocks == [] then count else CountAfter(NextCount(count, clocks[0].0, clocks[0].1), clocks[1..])
  }

  /** No call's two readings are more than the window apart. */
  predicate NoReset(clocks: seq<(int, int)>) {
    forall i :: 0 <= i < |clocks| ==> clocks[i].1 <= clocks[i].0 + ResetWindow
  }

  /** Without a reset, the k-th later call schedules what the count then reached demands. */
  lemma {:induction false} DelaysWithoutReset(count: int, clocks: seq<(int, int)>, k: nat)
    requires NoReset(clocks) && k < |clocks|
    ensures Delays(count, clocks)[k] == DelayFor(count + k + 1)
    ensures CountAfter(count, clocks) == count + |clocks|
    decreases |clocks|
  {
    var c := NextCount(count, clocks[0].0, clocks[0].1);
    assert NoReset(clocks[1..]) by {
      forall i | 0 <= i < |clocks[1..]| ensures clocks[1..][i].1 <= clocks[1..][i].0 + ResetWindow {
        assert clocks[1..][i] == clocks[i + 1];
      }
    }
    if |clocks| > 1 {
      DelaysWithoutReset(c, clocks[1..], if k == 0 then 0 else k - 1);
    } else {
      assert clocks[1..] == [];
    }
  }

  /**
   * From a fresh client (count 0) with no reset, calls 1 to 10 schedule
   * 1500, 3000, ..., 15000 ms and every later call schedules nothing.
   */
  lemma ReconnectSchedule(clocks: seq<(int, int)>, k: nat)
    requires NoReset(clocks) && k < |clocks|
    ensures k < 10 ==> Delays(0, clocks)[k] == Some((k + 1) * 1500)
    ensures k >= 10 ==> Delays(0, clocks)[k] == None
  {
    DelaysWithoutReset(0, clocks, k);
  }

  /** Within a run without reset, delays never decrease and once none is scheduled none ever is. */
  lemma DelaysMonotone(count: int, clocks: seq<(int, int)>, i: nat, j: nat)
    requires count >= 0 && NoReset(clocks) && i <= j < |clocks|
    ensures Delays(count, clocks)[i].Some? && Delays(count, clocks)[j].Some? ==>
              Delays(count, clocks)[i].value <= Delays(count, clocks)[j].value
    ensures Delays(count, clocks)[i].None? ==> Delays(count, clocks)[j].None?
  {
    DelaysWithoutReset(count, clocks, i);
    DelaysWithoutReset(count, clocks, j);
  }

  /** The number of calls that schedule a reconnect. */
  function Scheduled(delays: seq<Option<int>>): nat {
    if delays == [] then 0 else (if delays[0].Some? then 1 else 0) + Scheduled(delays[1..])
  }

  /** Without a reset, calls from a non-negative count schedule at most 10 - count reconnects. */
  lemma {:induction false} AtMostTenReconnects(count: int, clocks: seq<(int, int)>)
    requires 0 <= count && NoReset(clocks)
    ensures Scheduled(Delays(count, clocks)) <= if count >= MaxReconnects then 0 else MaxReconnects - count
    decreases |clocks|
  {
    if clocks != [] {
      var c := NextCount(count, clocks[0].0, clocks[0].1);
      assert c == count + 1;
      assert NoReset(clocks[1..]) by {
        forall i | 0 <= i < |clocks[1..]| ensures clocks[1..][i].1 <= clocks[1..][i].0 + ResetWindow {
          assert clocks[1..][i] == clocks[i + 1];
        }
      }
      AtMostTenReconnects(c, clocks[1..]);
      assert Delays(count, clocks)[1..] == Delays(c, clocks[1..]);
    }
  }

  // ----- a worked example ----------------------------------------------------

  const ExampleTweet: string := "{\"text\":\"hi\",\"id\":1}"
  const ExampleLimit: string := "{\"limit\":{\"track\":5}}"

  const ExampleTweetObj: Obj := map["text" := JStr("hi"), "id" := JNum(1)]
  const ExampleLimitObj: Obj := map["limit" := JObj(map["track" := JNum(5)])]

  /** A stand-in for `JSON.parse` that knows the two example frames. */
  function ExampleParse(text: string): Option<Obj> {
    if text == ExampleTweet then Some(ExampleTweetObj)
    else if text == ExampleLimit then Some(ExampleLimitObj)
    else None
  }

  const ExampleChunks: seq<string> := [ExampleTweet + "\r\n" + ExampleLimit + "\r", "\n"]

  lemma ExampleFrames()
    ensures Frames("" + Concat(ExampleChunks)) == [ExampleTweet, ExampleLimit]
  {
    var frames := [ExampleTweet, ExampleLimit];
    assert Concat(ExampleChunks[1..]) == "\n" + Concat([]);
    assert Concat(ExampleChunks) == ExampleTweet + "\r\n" + ExampleLimit + "\r" + "\n";
    assert Terminated(frames[1..]) == ExampleLimit + "\r\n" + Terminated([]);
    assert Terminated(frames) == ExampleTweet + "\r\n" + (ExampleLimit + "\r\n");
    assert "" + Concat(ExampleChunks) == Terminated(frames) + "";
    NoCarriageReturnNoDelim(ExampleTweet);
    NoCarriageReturnNoDelim(ExampleLimit);
    SplitOfTerminated(frames, "");
  }

  lemma ExampleNotices()
    ensures Notices([ExampleTweet, ExampleLimit], ExampleParse) == [Tweet(ExampleTweetObj), Special(Meta("limit", JObj(map["track" := JNum(5)])))]
  {
    var frames := [ExampleTweet, ExampleLimit];
    assert ExampleTweet != ExampleLimit;
    assert frames[1..] == [ExampleLimit];
    assert frames[1..][1..] == [];
    assert ExampleParse(ExampleTweet) == Some(ExampleTweetObj);
    assert ExampleParse(ExampleLimit) == Some(ExampleLimitObj);
    assert Classify(ExampleTweetObj) == Tweet(ExampleTweetObj);
    assert Classify(ExampleLimitObj) == Special(Meta("limit", JObj(map["track" := JNum(5)])));
    assert Notices(frames[1..], ExampleParse) == [Classify(ExampleLimitObj)] + Notices([], ExampleParse);
    assert Notices(frames, ExampleParse) == [Classify(ExampleTweetObj)] + Notices(frames[1..], ExampleParse);
  }

  /**
   * A tweet and a limit notice whose delimiter is cut between '\r' and '\n'
   * by the chunking come out as one 'data' and one 'limit' event.
   */
  lemma SplitDelimiterExample()
    ensures ToEvents(NoticesOfChunks("", ExampleChunks, ExampleParse))
            == [Event("data", Value(JObj(ExampleTweetObj))), Event("limit", Value(JObj(map["track" := JNum(5)])))]
  {
    NoticesIndependentOfChunking("", ExampleChunks, ExampleParse);
    ExampleFrames();
    ExampleNotices();
  }

  // ----- the client object ----------------------------------------------------

  class TStream {
    var config: Obj
    var reconnectCount: int
    /** `undefined` (None) until the first `reConnect`. */
    var lastReconnect: Option<int>
    var streamParams: Obj
    var parser: TweetParser?
    var streamingEndpoint: Option<string>

    constructor (userConfig: Obj)
      ensures config == MergeConfig(userConfig)
      ensures reconnectCount == 0 && lastReconnect == None
      ensures streamParams == map[] && parser == null && streamingEndpoint == None
    {
      config := MergeConfig(userConfig);
      reconnectCount := 0;
      lastReconnect := None;
      streamParams := map[];
      parser := null;
      streamingEndpoint := None;
    }

    /**
     * `stream(streamMethod, params, callback)`: a fresh parser, then the endpoint
     * and the merged parameters. Reading the base from a `null` `urls`
     * throws, leaving endpoint and parameters as they were. On success the
     * result says whether the callback is invoked.
     */
    method Stream(streamMethod: string, params: ParamsArg, callbackIsFunction: bool) returns (r: Result<bool, string>)
      modifies this
      ensures parser != null && fresh(parser) && parser.buffer == ""
      ensures config == old(config) && reconnectCount == old(reconnectCount) && lastReconnect == old(lastReconnect)
      ensures match StreamingEndpoint(config, streamMethod)
              case Failure(e) =>
                r == Failure(e) && streamingEndpoint == old(streamingEndpoint) && streamParams == old(streamParams)
              case Success(url) =>
                var (p, cb) := ShuffleArgs(params, callbackIsFunction);
                r == Success(cb) && streamingEndpoint == Some(url) && streamParams == MergeParams(p)
    {
      parser := new TweetParser();
      var (p, cb) := ShuffleArgs(params, callbackIsFunction);
      var endpoint := StreamingEndpoint(config, streamMethod);
      match endpoint {
        case Failure(e) =>
          r := Failure(e);
        case Success(url) =>
          streamingEndpoint := Some(url);
          streamParams := MergeParams(p);
          r := Success(cb);
      }
    }

    /** A 'data' chunk of the response goes to the parser; its notices come out as events, in order. */
    method OnChunk(chunk: string, parseJson: string -> Option<Obj>) returns (events: seq<Event>)
      requires parser != null
      modifies parser
      ensures events == ToEvents(Notices(Frames(old(parser.buffer) + chunk), parseJson))
      ensures parser.buffer == Rest(old(parser.buffer) + chunk)
    {
      var _, notices := parser.Parse(chunk, parseJson);
      events := ToEvents(notices);
    }

    /**
     * `reConnect()`: one more attempt, the timestamp set to the first clock
     * reading `t1`, a reset to 0 when the second reading `t2` is past the
     * window of `t1`, and the delay to wait, or none above the ceiling. The
     * previous timestamp plays no part.
     */
    method ReConnect(t1: int, t2: int) returns (delay: Option<int>)
      modifies this`reconnectCount, this`lastReconnect
      ensures reconnectCount == NextCount(old(reconnectCount), t1, t2)
      ensures lastReconnect == Some(t1)
      ensures delay == DelayFor(reconnectCount)
      ensures old(reconnectCount) >= 0 ==> reconnectCount >= 0
    {
      reconnectCount := reconnectCount + 1;
      lastReconnect := Some(t1);
      if t2 > lastReconnect.value + ResetWindow {
        reconnectCount := 0;
      }
      if reconnectCount > MaxReconnects {
        return None;
      }
      delay := Some(reconnectCount * DelayStep);
    }

    /**
     * The 'error' handlers of the request and of the response: re-emit the
     * error (to a registered 'error' listener). Unlike 'end' and 'close', an
     * error does not reconnect, so no field changes.
     */
    method OnError(message: string) returns (events: seq<Event>)
      ensures events == [Event("error", ErrorValue(message))]
    {
      events := [Event("error", ErrorValue(message))];
    }

    /** The response 'end' handler: emit 'end', then reconnect. */
    method OnEnd(t1: int, t2: int) returns (events: seq<Event>, delay: Option<int>)
      modifies this`reconnectCount, this`lastReconnect
      ensures events == [Event("end", Value(JStr("Response ended")))]
      ensures reconnectCount == NextCount(old(reconnectCount), t1, t2) && lastReconnect == Some(t1)
      ensures delay == DelayFor(reconnectCount)
      ensures old(reconnectCount) >= 0 ==> reconnectCount >= 0
    {
      events := [Event("end", Value(JStr("Response ended")))];
      delay := ReConnect(t1, t2);
    }

    /** The response 'close' handler: emit 'close', then reconnect. */
    method OnClose(t1: int, t2: int) returns (events: seq<Event>, delay: Option<int>)
      modifies this`reconnectCount, this`lastReconnect
      ensures events == [Event("close", Value(JStr("Connection closed")))]
      ensures reconnectCount == NextCount(old(reconnectCount), t1, t2) && lastReconnect == Some(t1)
      ensures delay == DelayFor(reconnectCount)
      ensures old(reconnectCount) >= 0 ==> reconnectCount >= 0
    {
      events := [Event("close", Value(JStr("Connection closed")))];
      delay := ReConnect(t1, t2);
    }
  }
}
