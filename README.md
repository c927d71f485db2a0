# tstream: stream framing and reconnection, modelled in Dafny

`tstream` is a Node.js client for Twitter's streaming API. A long-lived,
OAuth-signed HTTP POST returns a body of JSON messages, each terminated by
`"\r\n"`, arriving in arbitrary chunks. Two pieces of logic sit under the
HTTP and event-emitter plumbing, and they are what this project models:

- **`TweetParser`** (`lib/tweet-parser.js`) keeps the not-yet-delimited tail
  of the stream in `this.buffer`. `parse` appends a chunk, ignores a text that
  is exactly `"\n"`, takes a fast path when the text is one `{…}` followed by
  `"\r\n"`, and otherwise splits on `"\r\n"`, handing every part but the last
  to `notifyAboutTweets` and keeping the last as the new buffer.
  `notifyAboutTweets` parses each frame and classifies it with a first-match
  chain of own-property tests into a `'tweet'` or a `'special'` notice; a frame
  that is not JSON is skipped.
- **`TStream`** (`lib/tstream.js`) merges the caller's configuration over the
  defaults, builds the endpoint URL and the request parameters, turns parser
  notices into outward events, flags any HTTP status above 200 as an error,
  and on `end`/`close` runs `reConnect`, a counter with a linear back-off.

Files:

- `wrappers.dfy` (module `Wrappers`): `Option` (also JavaScript's `undefined`) and `Result` (a thrown error).
- `js.dfy` (module `Js`): parsed JSON values, property reads that throw on `null`,
  the string coercion of `+`, lodash's shallow `_.extend`, and the built-in `escape()`.
- `framing.dfy` (module `Framing`): `split("\r\n")` and the frames/tail it yields, with
  conservation, the inverse with `Terminated`, and independence from chunking.
- `tweets.dfy` (module `Tweets`): the fast-path regular expression, the classification,
  the per-batch notices, and `class TweetParser` with `buffer`, `InitBuffer`, `Parse`
  and `NotifyAboutTweets`.
- `streaming.dfy` (module `Streaming`): configuration and parameter merging, the
  endpoint, the event mapping, the status check, the back-off functions and
  `class TStream` with `Stream`, `OnChunk`, `OnError`, `OnEnd`, `OnClose` and `ReConnect`.

`JSON.parse` is a parameter `parseJson: string -> Option<Obj>` (None where it
throws). The clock readings of `reConnect` are parameters `t1` (line 153) and
`t2` (line 156), and `reConnect` returns the `setTimeout` delay, or None.

Behaviour as written, which the model keeps:

- The keep-alive test is for `"\n"`, not `"\r\n"`, and that branch returns
  before `init_buffer`, so the buffer stays `"\n"`. An accumulated `"\r\n"` is
  a split into one empty frame (which `JSON.parse` rejects) and an empty buffer.
- `reConnect` writes `lastReconnect` before the window check, so the previous
  attempt's time is never consulted: the count resets (to 0, not 1) only when
  the two clock readings of one call are more than 120000 ms apart. A reset
  therefore schedules a reconnect after 0 ms.
- Only `end` and `close` call `reConnect`; a request or response `error` is
  re-emitted to the client's `'error'` listener and nothing else happens.
- The status check is `> 200`: 201–299 emit an `'error'` event too, and, given
  an `'error'` listener, the data/end/close handlers are attached whatever the
  status.
- `notifyAboutTweets` tests properties with the object's own
  `hasOwnProperty`. A parsed object that has a `hasOwnProperty` key shadows
  the method with a non-function; the first test then throws and the catch
  drops the frame, as it does a frame that is not JSON.
- The `'unknown'` notice stores the object under `data`, while `TStream`
  re-emits `data.meta`, so an `'unknown'` event carries `undefined`.
- The user-event tag is `'user-event'`, with a hyphen.

The comments beside the code suggest otherwise on two of these points: the one
at lib/tweet-parser.js:32-35 speaks of a newline chunk that is simply ignored,
and the one at lib/tstream.js:155 of a reset measured from the previous
reconnect. The model follows the code.

## Model

| member | source | states |
|---|---|---|
| `Js.Extend` | lib/tstream.js:32 | `_.extend(a, b)` has the keys of both; `b`'s value wins on a shared key, `a`'s value stays elsewhere |
| `Js.GetProp` | lib/tstream.js:68-70 | reading a property throws a TypeError exactly on `undefined` or `null`; otherwise a value is found exactly when the value is an object with that own key, and it is that property |
| `Js.NatToStringRoundTrip` | lib/tstream.js:121 | the decimal text of a status code denotes that number |
| `Js.IntToString` | lib/tstream.js:121 | `String(n)` starts with '-' exactly for negative `n`, followed by decimal digits without leading zeros that denote |n| |
| `Js.EscapeUnits` | lib/tstream.js:72 | `escape()` of UTF-16 code units yields only kept characters and '%' |
| `Js.EscapeKeepsSafeText` | lib/tstream.js:72 | `escape()` leaves a text of letters, digits and `@*_+-./` unchanged |
| `Js.EscapeOutputAlphabet` | lib/tstream.js:72 | the output of `escape()` consists of kept characters and '%' only |
| `Js.Escape` | lib/tstream.js:72 | `escape()` over the UTF-16 code units of the text; specified by `EscapeKeepsSafeText` and `EscapeOutputAlphabet` |
| `Js.ToJsString` | lib/tstream.js:72 | the operand coercion of `+`: `undefined` reads "undefined", a string itself; specified through `EndpointSelectsBase` and `CallerUrlsReplaceDefaults` |
| `Js.JsonToString` | lib/tstream.js:72 | the coercion of a defined value: `null`, booleans, integers by `IntToString`, strings, arrays joined by ",", objects as "[object Object]" |
| `Framing.FindDelim` | lib/tweet-parser.js:51 | finds the first `"\r\n"`, or reports that there is none |
| `Framing.Split` | lib/tweet-parser.js:51 | `split` always yields at least one part |
| `Framing.Frames` | lib/tweet-parser.js:51-53 | `parts.splice(0, parts.length-1)`: every part but the last; specified by `SplitConserves`, `SplitOfTerminated` and `SplitPartsHaveNoDelim` |
| `Framing.Rest` | lib/tweet-parser.js:51-57 | the last part, which becomes the buffer; specified by the same lemmas |
| `Framing.NoCarriageReturnNoDelim` | lib/tweet-parser.js:51 | a text without '\r' contains no delimiter |
| `Framing.SplitPartsHaveNoDelim` | lib/tweet-parser.js:51-57 | no emitted frame and no kept tail contains `"\r\n"` |
| `Framing.SplitConserves` | lib/tweet-parser.js:28-57 | frames each followed by `"\r\n"`, then the tail, give back the accumulated text: nothing lost or duplicated |
| `Framing.SplitOfTerminated` | lib/tweet-parser.js:51-57 | the split recovers exactly the delimiter-free frames and tail a text was made of |
| `Framing.SplitAppend` | lib/tweet-parser.js:28-57 | splitting `x + y` equals splitting `x`, then splitting `x`'s tail extended by `y` |
| `Framing.FeedChunksSplitsWhole` | lib/tweet-parser.js:28-57 | feeding any chunking of a text in order yields the frames and final buffer of splitting the whole text, a delimiter cut between chunks included |
| `Tweets.SingleFrameIsSplit` | lib/tweet-parser.js:47-57 | the `/^({.*})\r\n$/` fast path emits the text before the final `"\r\n"` and empties the buffer, which is what the split yields |
| `Tweets.KeepAliveIsSplit` | lib/tweet-parser.js:36-38 | for the text `"\n"`, emitting nothing and keeping `"\n"` is what the split yields |
| `Tweets.IsSingleFrame` | lib/tweet-parser.js:47 | `/^({.*})\r\n$/`: '{' first, '}' then "\r\n" last, and no line terminator (which `.` does not match) in between; specified by `SingleFrameIsSplit` |
| `Tweets.Classify` | lib/tweet-parser.js:81-99 | the if/else chain of own-property tests; specified by `ClassifyIsFirstMatch` and `ClassifyOutcomes` |
| `Tweets.FirstPresent` | lib/tweet-parser.js:81-95 | finds the first key of a list that the object has, all earlier keys being absent |
| `Tweets.ClassifyIsFirstMatch` | lib/tweet-parser.js:81-99 | the if/else chain equals a first-match rule list: tweet, the six special keys in order, user event, unknown |
| `Tweets.ClassifyOutcomes` | lib/tweet-parser.js:81-99 | the exact condition for each outcome, both directions: `text`∧`id` is a tweet whatever else is present; a special key wins when it is the first present; `'user-event'` carries the object; `'unknown'` carries it under `data` |
| `Tweets.ShadowsHasOwnProperty` | lib/tweet-parser.js:81 | an object with its own `hasOwnProperty` key makes the first test call a non-function, which throws |
| `Tweets.Notifiable` | lib/tweet-parser.js:77-102 | a frame yields a notice exactly when `JSON.parse` accepts it and the tests do not throw; otherwise the catch only logs; specified by `BadFrameIsDropped` and `NoticesPerFrame` |
| `Tweets.FrameNotices` | lib/tweet-parser.js:77-102 | the notices of one frame: its classification when notifiable, none otherwise |
| `Tweets.Notices` | lib/tweet-parser.js:76-103 | the notices of a batch, frame by frame in order; specified by `NoticesAppend`, `BadFrameIsDropped`, `NoticesPerFrame` and matched by `NotifyAboutTweets` |
| `Tweets.NoticesAppend` | lib/tweet-parser.js:76-103 | each frame is handled on its own, so the notices of a batch concatenate |
| `Tweets.BadFrameIsDropped` | lib/tweet-parser.js:77-102 | a frame that fails `JSON.parse`, or whose object has its own `hasOwnProperty` key (the test at line 81 then throws), yields nothing and does not affect the frames around it |
| `Tweets.NoticesPerFrame` | lib/tweet-parser.js:76-103 | at most one notice per frame; when every frame is notifiable (it parses and its object does not shadow `hasOwnProperty`), exactly one each, in frame order |
| `Tweets.DelimiterOnlyIsEmptyFrame` | lib/tweet-parser.js:51-57 | an accumulated `"\r\n"` is one empty frame and an empty buffer, and yields no notice |
| `Tweets.NoticesIndependentOfChunking` | lib/tweet-parser.js:27-104 | the notices of successive `parse` calls are those of the frames of the whole stream, whatever the chunking |
| `Tweets.TweetParser.constructor` | lib/tweet-parser.js:9-12 | a new parser has an empty buffer |
| `Tweets.TweetParser.InitBuffer` | lib/tweet-parser.js:16-19 | the buffer becomes the argument, or empty when it is `undefined` |
| `Tweets.TweetParser.Parse` | lib/tweet-parser.js:27-62 | the emitted frames and new buffer are the split of old buffer plus chunk, in every branch; the `"\n"` case keeps `"\n"`; the fast path empties the buffer; the buffer never holds `"\r\n"`; frames, delimiters and buffer conserve the text; the notices are those of the frames |
| `Tweets.TweetParser.NotifyAboutTweets` | lib/tweet-parser.js:65-104 | the loop emits, in order, the classification of each frame that parses and skips the others, and those whose own `hasOwnProperty` key makes the test at line 81 throw |
| `Streaming.MergeConfig` | lib/tstream.js:11-32 | each caller key replaces the default as a whole; unsupplied keys keep their defaults |
| `Streaming.DefaultConfig` | lib/tstream.js:11-30 | the default credentials, URLs and headers; specified by `DefaultBases` and `DefaultUrlsKept` |
| `Streaming.BaseKey` | lib/tstream.js:67-71 | the URL key a method selects: `user_stream_base`, `site_stream_base` or `stream_base`; specified by `EndpointSelectsBase` |
| `Streaming.EndpointBase` | lib/tstream.js:66-71 | the prefix read from `config.urls`, throwing on `null` `urls`; specified by `EndpointSelectsBase` and `NullUrlsThrow` |
| `Streaming.StreamingEndpoint` | lib/tstream.js:66-72 | prefix + "/" + escape(method) + ".json"; specified by `EndpointSelectsBase`, `DefaultEndpoint` and `CallerUrlsReplaceDefaults` |
| `Streaming.EndpointSelectsBase` | lib/tstream.js:66-72 | `"user"` and `"site"` take `user_stream_base` / `site_stream_base`, any other method `stream_base`; the URL is base + "/" + escape(method) + ".json", a missing base reading "undefined" |
| `Streaming.NullUrlsThrow` | lib/tstream.js:68-70 | a `null` `urls` makes the base lookup throw |
| `Streaming.DefaultBases` | lib/tstream.js:16-24 | the default URLs hold the three streaming bases, each under the key its method selects |
| `Streaming.DefaultUrlsKept` | lib/tstream.js:16-32 | a configuration without `urls` keeps the default URL object |
| `Streaming.DefaultEndpoint` | lib/tstream.js:66-72 | with the default URLs (lines 21-23), `"user"` gives `https://userstream.twitter.com/1.1/`, `"site"` `https://sitestream.twitter.com/1.1/` and any other method `https://stream.twitter.com/1.1/`, followed by the escaped method and `.json` |
| `Streaming.DefaultGenericEndpoint` | lib/tstream.js:66-72 | with the default URLs (line 21), another method of kept characters gives `https://stream.twitter.com/1.1/<method>.json` |
| `Streaming.CallerUrlsReplaceDefaults` | lib/tstream.js:66-72 | a caller `urls` object replaces the default URLs as a whole (the shallow merge of line 32): a method whose base it lacks gets `undefined/<escaped method>.json` |
| `Streaming.ShuffleArgs` | lib/tstream.js:60-63 | a function in the params position becomes the callback and the params `null`; specified by `StreamParamsMerge` |
| `Streaming.MergeParams` | lib/tstream.js:74-78 | `_.extend({stall_warnings: null}, params)`; specified by `StreamParamsMerge` |
| `Streaming.StreamParamsMerge` | lib/tstream.js:60-78 | the params hold every caller key with the caller's value plus `stall_warnings: null` unless supplied; a function in the params position becomes the callback and only the defaults are used |
| `Streaming.ToEvent` | lib/tstream.js:86-93 | a tweet becomes `'data'`, a special notice the event named by its type with its `meta`; specified by `EventOfParsedFrame` |
| `Streaming.ToEvents` | lib/tstream.js:86-93 | one outward event per parser notice, in order |
| `Streaming.EventOfParsedFrame` | lib/tstream.js:86-93 | a tweet becomes `'data'`, a special key its own event with the key's value, a user event `'user-event'` with the object, and `'unknown'` an event with an undefined payload; no frame raises `'error'`, `'end'` or `'close'` |
| `Streaming.IsErrorStatus` | lib/tstream.js:120 | the test `statusCode > 200` |
| `Streaming.OnResponse` | lib/tstream.js:118-141 | the events a response emits at once and the handlers it gets; specified by `ResponseStatusCheck` |
| `Streaming.ResponseStatusCheck` | lib/tstream.js:118-142 | a status above 200 emits one `'error'` whose message is "HTTP " and the status; the four handlers are attached for every status, given an `'error'` listener |
| `Streaming.NextCount` | lib/tstream.js:152-158 | the count after one call; specified by `NextCountSpec` and used by `TStream.ReConnect` |
| `Streaming.DelayFor` | lib/tstream.js:160-168 | the `setTimeout` delay for a count, or none; specified by `NextCountSpec`, `ReconnectSchedule` and `DelaysMonotone` |
| `Streaming.NextCountSpec` | lib/tstream.js:152-160 | the count is reset only when the second reading exceeds the first by more than 120000 ms; otherwise it grows by one; a delay is scheduled exactly when the count is at most 10 |
| `Streaming.Delays` | lib/tstream.js:151-169 | successive `reConnect` calls yield one decision each |
| `Streaming.DelaysWithoutReset` | lib/tstream.js:151-169 | without a reset the k-th later call's decision is that for the count plus k + 1 |
| `Streaming.ReconnectSchedule` | lib/tstream.js:151-169 | from count 0 (the constructor's value, line 44) without reset, calls 1 to 10 schedule 1500 to 15000 ms and every later call nothing |
| `Streaming.DelaysMonotone` | lib/tstream.js:160-168 | within a run without reset delays never decrease, and once nothing is scheduled nothing ever is |
| `Streaming.AtMostTenReconnects` | lib/tstream.js:160-168 | without a reset at most 10 reconnects are scheduled from a fresh count |
| `Streaming.SplitDelimiterExample` | lib/tstream.js:86-93 | a tweet and a limit notice whose delimiter is cut between chunks surface as `'data'` and `'limit'` events |
| `Streaming.TStream.constructor` | lib/tstream.js:7-48 | the config is the shallow merge over the defaults, the count 0, the params empty |
| `Streaming.TStream.Stream` | lib/tstream.js:52-99 | a fresh parser; on success the endpoint and merged params are stored and the result says whether the callback runs; a throwing base lookup leaves endpoint and params as they were |
| `Streaming.TStream.OnChunk` | lib/tstream.js:124-126 | a chunk goes through the parser and its notices come out as events, in order |
| `Streaming.TStream.OnError` | lib/tstream.js:113-130 | an error is re-emitted as `'error'` (to a registered listener) and changes no state: it does not reconnect |
| `Streaming.TStream.ReConnect` | lib/tstream.js:151-169 | the count becomes one more, or 0 on a reset against the timestamp just written, so a non-negative count stays non-negative; the timestamp is the first reading; the delay is count × 1500 ms, or none above 10 |
| `Streaming.TStream.OnEnd` | lib/tstream.js:132-135 | emits `'end'` with "Response ended", then reconnects, keeping the count non-negative |
| `Streaming.TStream.OnClose` | lib/tstream.js:137-140 | emits `'close'` with "Connection closed", then reconnects, keeping the count non-negative |

## Left out

- An `'error'` listener on the client is assumed throughout. Node's `EventEmitter` throws when `'error'` is emitted with no listener; at lib/tstream.js:121 that would leave the `'response'` handler before lines 124-140 attach anything, and at lines 115 and 129 it would escape the handler. That throw is not modelled.
- `Js.IntToString`: plain decimal for every integer; JavaScript switches to exponent form (`1e+21`) from magnitude 10^21 on, which an HTTP status never reaches.
- OAuth signing, `oauth.post`, the request and response objects and `request.end()` (lib/tstream.js:35-42, 101-112, 144): foreign network calls. Only the decisions around them are modelled; `connectToTwittetStream` itself is represented by `OnResponse`, `OnChunk`, `OnError`, `OnEnd` and `OnClose`.
- The TypeError the constructor raises at line 36 for a `null` `urls` is not modelled, since it comes from the left-out OAuth set-up; the model's `Stream` reports the same TypeError at the base lookup instead.
- `EventEmitter` inheritance, `on` and `emit`: notices and events are returned as sequences, in emission order. That `stream` attaches its parser listeners after starting the request (lines 81-93) is immaterial here because chunks arrive later.
- The `setTimeout` call and the reconnect it triggers: its callback uses an unbound `this` (lines 165-167). `ReConnect` returns the delay instead.
- `JSON.parse` is a parameter, not a parser; non-object JSON results (numbers, `null`, arrays at top level) are not modelled, and numbers are integers (fractions and exponent forms are not represented).
- `Buffer` concatenation and UTF-8 decoding (lib/tweet-parser.js:18, 28-29): the buffer is a string of characters, so a multi-byte character split across chunks, which the source corrupts, is not modelled.
- `Date`: clock readings are parameters. `console.log` is left out.
- `ParamsArg` covers object, function, `null` and `undefined` arguments; other argument types are not modelled. `Extend` is lodash's shallow assign for plain objects; inherited properties and `undefined` values are not modelled.
- `Js.GetProp`: a primitive or array is taken to have none of the looked-up property names (`urls`, `stream_base`, …), which holds for those names.
- `Js.Escape` covers `escape()` fully, but its inverse `unescape()` is not modelled.
