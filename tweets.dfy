/**
 * The tweet parser: a buffer of not-yet-delimited stream text, the `parse`
 * step that cuts complete frames off it, and the classification of each
 * parsed frame into a tweet or a "special" notice.
 */
module Tweets {
  import opened Wrappers
  import opened Js
  import opened Framing

  // ----- the single-tweet fast path: /^({.*})\r\n$/ --------------------------

  /** The characters the regular-expression `.` does not match. */
  predicate IsLineTerminator(c: char) {
    c == '\n' || c == '\r' || c == '\U{2028}' || c == '\U{2029}'
  }

  /**
   * `data` matches `/^({.*})\r\n$/`: it starts with '{', ends with "}\r\n",
   * and no line terminator occurs before that final "\r\n".
   */
  predicate IsSingleFrame(data: string) {
    |data| >= 4 && data[0] == '{' && data[|data| - 3] == '}'
    && data[|data| - 2] == '\r' && data[|data| - 1] == '\n'
    && forall i :: 0 <= i < |data| - 2 ==> !IsLineTerminator(data[i])
  }

  /** The fast path agrees with the split: one frame (the captured group) and an empty tail. */
  lemma SingleFrameIsSplit(data: string)
    requires IsSingleFrame(data)
    ensures Frames(data) == [data[..|data| - 2]] && Rest(data) == ""
  {
    var f := data[..|data| - 2];
    assert NoDelim(f) by {
      forall p | 0 <= p < |f| ensures !DelimAt(f, p) {
        assert !IsLineTerminator(data[p]);
      }
    }
    assert Terminated([f]) + "" == data;
    SplitOfTerminated([f], "");
  }

  /** The keep-alive text "\n" is a tail with no frame, as the split would also say. */
  lemma KeepAliveIsSplit()
    ensures Frames("\n") == [] && Rest("\n") == "\n"
  {
    FramesOnNoDelim("\n");
  }

  // ----- classification -------------------------------------------------------

  /** A "special" notice: `{type, meta}`, or the unknown case `{type: 'unknown', reason, data}`. */
  datatype SpecialMsg =
    | Meta(kind: string, meta: Json)
    | Unknown(reason: string, data: Obj)
  {
    /** The notice's `type` field. */
    function Type(): string {
      match this
      case Meta(k, _) => k
      case Unknown(_, _) => "unknown"
    }

    /** The notice's `meta` field; the unknown notice has none (`undefined`). */
    function MetaField(): Option<Json> {
      match this
      case Meta(_, m) => Some(m)
      case Unknown(_, _) => None
    }
  }

  /** What the parser emits for one parsed frame: a 'tweet' or a 'special' event. */
  datatype Notice =
    | Tweet(tweet: Obj)
    | Special(special: SpecialMsg)

  /** The keys with a payload-carrying special notice, in the order they are tested. */
  const SpecialKeys: seq<string> := ["disconnect", "limit", "status_withheld", "scrub_geo", "delete", "warning"]

  const UserEvent: string := "user-event"

  predicate IsTweet(o: Obj) {
    "text" in o && "id" in o
  }

  predicate IsUserEvent(o: Obj) {
    "event" in o && "target_object" in o
  }

  /**
   * The tests call the object's `hasOwnProperty`. A parsed object with its own
   * `hasOwnProperty` key shadows the inherited method with a non-function, so
   * the first test throws (and the frame is dropped by the surrounding catch).
   */
  predicate ShadowsHasOwnProperty(o: Obj) {
    "hasOwnProperty" in o
  }

  /** The if/else chain over own properties of a parsed object whose `hasOwnProperty` is the inherited one. */
  function Classify(o: Obj): Notice {
    if "text" in o && "id" in o then Tweet(o)
    else if "disconnect" in o then Special(Meta("disconnect", o["disconnect"]))
    else if "limit" in o then Special(Meta("limit", o["limit"]))
    else if "status_withheld" in o then Special(Meta("status_withheld", o["status_withheld"]))
    else if "scrub_geo" in o then Special(Meta("scrub_geo", o["scrub_geo"]))
    else if "delete" in o then Special(Meta("delete", o["delete"]))
    else if "warning" in o then Special(Meta("warning", o["warning"]))
    else if "event" in o && "target_object" in o then Special(Meta(UserEvent, JObj(o)))
    else Special(Unknown("unknown", o))
  }

  /** The first of `keys` that `o` has, if any. */
  function FirstPresent(o: Obj, keys: seq<string>): (r: Option<nat>)
    ensures r.Some? ==> r.value < |keys| && keys[r.value] in o
                        && forall i :: 0 <= i < r.value ==> keys[i] !in o
    ensures r.None? ==> forall i :: 0 <= i < |keys| ==> keys[i] !in o
  {
    if keys == [] then None
    else if keys[0] in o then Some(0)
    else match FirstPresent(o, keys[1..])
      case None => None
      case Some(i) => Some(i + 1)
  }

  /** `FirstPresent` finds the first present key. */
  lemma FirstPresentAt(o: Obj, keys: seq<string>, j: nat)
    requires j < |keys| && keys[j] in o && forall i :: 0 <= i < j ==> keys[i] !in o
    ensures FirstPresent(o, keys) == Some(j)
  {
  }

  /** First match over a rule list: tweet, then the special keys in order, then user events. */
  function ClassifyByRules(o: Obj): Notice {
    if IsTweet(o) then Tweet(o)
    else match FirstPresent(o, SpecialKeys)
      case Some(i) => Special(Meta(SpecialKeys[i], o[SpecialKeys[i]]))
      case None => if IsUserEvent(o) then Special(Meta(UserEvent, JObj(o))) else Special(Unknown("unknown", o))
  }

  /** The if/else chain is the first-match rule list. */
  lemma ClassifyIsFirstMatch(o: Obj)
    ensures Classify(o) == ClassifyByRules(o)
  {
    var r := FirstPresent(o, SpecialKeys);
    if IsTweet(o) {
    } else if "disconnect" in o {
      assert r == Some(0);
    } else if "limit" in o {
      assert SpecialKeys[0] !in o;
      FirstPresentAt(o, SpecialKeys, 1);
    } else if "status_withheld" in o {
      assert SpecialKeys[0] !in o && SpecialKeys[1] !in o;
      FirstPresentAt(o, SpecialKeys, 2);
    } else if "scrub_geo" in o {
      assert SpecialKeys[0] !in o && SpecialKeys[1] !in o && SpecialKeys[2] !in o;
      FirstPresentAt(o, SpecialKeys, 3);
    } else if "delete" in o {
      assert SpecialKeys[0] !in o && SpecialKeys[1] !in o && SpecialKeys[2] !in o && SpecialKeys[3] !in o;
      FirstPresentAt(o, SpecialKeys, 4);
    } else if "warning" in o {
      assert SpecialKeys[0] !in o && SpecialKeys[1] !in o && SpecialKeys[2] !in o && SpecialKeys[3] !in o;
      assert SpecialKeys[4] !in o;
      FirstPresentAt(o, SpecialKeys, 5);
    } else {
      assert forall k :: 0 <= k < |SpecialKeys| ==> SpecialKeys[k] !in o;
      assert r == None;
    }
  }

  lemma KeysDistinct(i: nat, j: nat)
    requires i < |SpecialKeys| && j < |SpecialKeys| && SpecialKeys[i] == SpecialKeys[j]
    ensures i == j
  {
  }

  /** The classification names this special kind. */
  predicate IsKind(n: Notice, kind: string) {
    n.Special? && n.special.Type() == kind
  }

  /** `SpecialKeys[j]` is the first special key `o` has. */
  predicate FirstSpecialKey(o: Obj, j: nat) {
    j < |SpecialKeys| && SpecialKeys[j] in o && forall i :: 0 <= i < j ==> SpecialKeys[i] !in o
  }

  predicate NoSpecialKey(o: Obj) {
    forall i :: 0 <= i < |SpecialKeys| ==> SpecialKeys[i] !in o
  }

  /**
   * Each outcome of the classification, with the exact condition for it
   * (first match wins). In particular an object with `text`, `id` and
   * `warning` is a tweet.
   */
  lemma ClassifyOutcomes(o: Obj)
    ensures Classify(o) == Tweet(o) <==> IsTweet(o)
    ensures forall j :: 0 <= j < |SpecialKeys| ==> (IsKind(Classify(o), SpecialKeys[j]) <==> !IsTweet(o) && FirstSpecialKey(o, j))
    ensures forall j :: 0 <= j < |SpecialKeys| && IsKind(Classify(o), SpecialKeys[j]) ==>
              Classify(o) == Special(Meta(SpecialKeys[j], o[SpecialKeys[j]]))
    ensures IsKind(Classify(o), UserEvent) <==> !IsTweet(o) && NoSpecialKey(o) && IsUserEvent(o)
    ensures IsKind(Classify(o), UserEvent) ==> Classify(o) == Special(Meta(UserEvent, JObj(o)))
    ensures Classify(o).Special? && Classify(o).special.Unknown? <==> !IsTweet(o) && NoSpecialKey(o) && !IsUserEvent(o)
    ensures Classify(o).Special? && Classify(o).special.Unknown? ==> Classify(o) == Special(Unknown("unknown", o))
  {
    ClassifyIsFirstMatch(o);
    var r := FirstPresent(o, SpecialKeys);
    forall j | 0 <= j < |SpecialKeys|
      ensures IsKind(Classify(o), SpecialKeys[j]) <==> !IsTweet(o) && FirstSpecialKey(o, j)
    {
      if !IsTweet(o) && r.Some? && IsKind(Classify(o), SpecialKeys[j]) {
        KeysDistinct(r.value, j);
      }
      if !IsTweet(o) && FirstSpecialKey(o, j) {
        assert r.value == j;
      }
    }
  }

  // ----- notifications for a batch of frames ----------------------------------

  /**
   * A frame yields a notice when `JSON.parse` accepts it and the property tests
   * do not throw; otherwise the catch only logs.
   */
  predicate Notifiable(text: string, parseJson: string -> Option<Obj>) {
    parseJson(text).Some? && !ShadowsHasOwnProperty(parseJson(text).value)
  }

  /** The notices of one frame: its classification when notifiable, none otherwise. */
  function FrameNotices(text: string, parseJson: string -> Option<Obj>): seq<Notice> {
    if Notifiable(text, parseJson) then [Classify(parseJson(text).value)] else []
  }

  /** The notices for a batch of frame texts: one per notifiable frame, in order. */
  function Notices(tweets: seq<string>, parseJson: string -> Option<Obj>): seq<Notice> {
    if tweets == [] then []
    else FrameNotices(tweets[0], parseJson) + Notices(tweets[1..], parseJson)
  }

  /** Frames are handled independently, so batches concatenate. */
  lemma {:induction false} NoticesAppend(a: seq<string>, b: seq<string>, parseJson: string -> Option<Obj>)
    ensures Notices(a + b, parseJson) == Notices(a, parseJson) + Notices(b, parseJson)
  {
    if a == [] {
      assert a + b == b;
    } else {
      assert (a + b)[0] == a[0];
      assert (a + b)[1..] == a[1..] + b;
      NoticesAppend(a[1..], b, parseJson);
      var first := FrameNotices(a[0], parseJson);
      var na, nb := Notices(a[1..], parseJson), Notices(b, parseJson);
      assert first + (na + nb) == (first + na) + nb;
    }
  }

  /** One more frame adds its own notices at the end. */
  lemma NoticesSnoc(prefix: seq<string>, text: string, parseJson: string -> Option<Obj>)
    ensures Notices(prefix + [text], parseJson) == Notices(prefix, parseJson) + FrameNotices(text, parseJson)
  {
    NoticesAppend(prefix, [text], parseJson);
    assert Notices([text], parseJson) == FrameNotices(text, parseJson) + Notices([], parseJson);
  }

  /**
   * A frame that fails to parse, or whose object shadows `hasOwnProperty`, is
   * skipped without affecting its neighbours.
   */
  lemma {:induction false} BadFrameIsDropped(before: seq<string>, bad: string, after: seq<string>, parseJson: string -> Option<Obj>)
    requires parseJson(bad) == None || ShadowsHasOwnProperty(parseJson(bad).value)
    ensures Notices(before + [bad] + after, parseJson) == Notices(before, parseJson) + Notices(after, parseJson)
  {
    assert Notices([bad], parseJson) == [] + Notices([], parseJson);
    NoticesAppend(before, [bad], parseJson);
    var head := Notices(before + [bad], parseJson);
    assert head == Notices(before, parseJson);
    NoticesAppend(before + [bad], after, parseJson);
  }

  /** At most one notice per frame; exactly one for each when every frame is notifiable, in frame order. */
  lemma {:induction false} NoticesPerFrame(tweets: seq<string>, parseJson: string -> Option<Obj>)
    ensures |Notices(tweets, parseJson)| <= |tweets|
    ensures (forall k :: 0 <= k < |tweets| ==> Notifiable(tweets[k], parseJson)) ==>
              |Notices(tweets, parseJson)| == |tweets| &&
              forall k :: 0 <= k < |tweets| ==> Notices(tweets, parseJson)[k] == Classify(parseJson(tweets[k]).value)
  {
    if tweets != [] {
      NoticesPerFrame(tweets[1..], parseJson);
      if forall k :: 0 <= k < |tweets| ==> Notifiable(tweets[k], parseJson) {
        assert forall k :: 0 <= k < |tweets| - 1 ==> tweets[1..][k] == tweets[k + 1];
      }
    }
  }

  /**
   * An accumulated "\r\n" alone is one empty frame and an empty buffer; the
   * empty frame is not JSON, so nothing is notified.
   */
  lemma DelimiterOnlyIsEmptyFrame(parseJson: string -> Option<Obj>)
    requires parseJson("") == None
    ensures Frames("\r\n") == [""] && Rest("\r\n") == ""
    ensures Notices(Frames("\r\n"), parseJson) == []
  {
    assert Terminated([""]) + "" == "\r\n";
    SplitOfTerminated([""], "");
  }

  /** The notices of feeding `chunks` one `parse` call at a time, concatenated. */
  function NoticesOfChunks(buffer: string, chunks: seq<string>, parseJson: string -> Option<Obj>): seq<Notice>
    decreases |chunks|
  {
    if chunks == [] then []
    else
      var data := buffer + chunks[0];
      Notices(Frames(data), parseJson) + NoticesOfChunks(Rest(data), chunks[1..], parseJson)
  }

  /** However the stream is chunked, the notices are those of its frames, in stream order. */
  lemma {:induction false} NoticesIndependentOfChunking(buffer: string, chunks: seq<string>, parseJson: string -> Option<Obj>)
    requires NoDelim(buffer)
    ensures NoticesOfChunks(buffer, chunks, parseJson) == Notices(Frames(buffer + Concat(chunks)), parseJson)
    decreases |chunks|
  {
    if chunks == [] {
      assert buffer + Concat(chunks) == buffer;
      FramesOnNoDelim(buffer);
    } else {
      var data, more := buffer + chunks[0], Concat(chunks[1..]);
      assert buffer + Concat(chunks) == data + more;
      SplitPartsHaveNoDelim(data);
      NoticesIndependentOfChunking(Rest(data), chunks[1..], parseJson);
      SplitAppend(data, more);
      NoticesAppend(Frames(data), Frames(Rest(data) + more), parseJson);
    }
  }

  // ----- the parser object ----------------------------------------------------

  class TweetParser {
    /** The not-yet-delimited tail of the stream. */
    var buffer: string

    constructor ()
      ensures buffer == ""
    {
      buffer := "";
    }

    /** `init_buffer(data)`: an absent (`undefined`) argument empties the buffer. */
    method InitBuffer(data: Option<string>)
      modifies this
      ensures buffer == data.GetOr("")
    {
      buffer := data.GetOr("");
    }

    /**
     * `parse(chunk)`: append the chunk, then either ignore a lone "\n", take
     * the single-frame fast path, or split on "\r\n" keeping the last part as
     * the buffer; the frames are then handed to `notifyAboutTweets`.
     * Whatever the branch, the outcome is that of the split.
     */
    method Parse(chunk: string, parseJson: string -> Option<Obj>) returns (tweets: seq<string>, notices: seq<Notice>)
      modifies this
      ensures tweets == Frames(old(buffer) + chunk)
      ensures buffer == Rest(old(buffer) + chunk)
      ensures old(buffer) + chunk == "\n" ==> tweets == [] && buffer == "\n"
      ensures IsSingleFrame(old(buffer) + chunk) ==> tweets == [(old(buffer) + chunk)[..|old(buffer) + chunk| - 2]] && buffer == ""
      ensures Terminated(tweets) + buffer == old(buffer) + chunk
      ensures NoDelim(buffer)
      ensures notices == Notices(tweets, parseJson)
    {
      buffer := buffer + chunk;
      var data := buffer;
      SplitPartsHaveNoDelim(data);
      SplitConserves(data);
      if data == "\n" {
        KeepAliveIsSplit();
        tweets, notices := [], [];
        return;
      }
      if IsSingleFrame(data) {
        SingleFrameIsSplit(data);
        tweets := [data[..|data| - 2]];
        InitBuffer(None);
      } else {
        var parts := Split(data);
        tweets := parts[..|parts| - 1];
        InitBuffer(Some(parts[|parts| - 1]));
      }
      notices := NotifyAboutTweets(tweets, parseJson);
    }

    /**
     * `notifyAboutTweets(tweets)`: parse each frame in turn; a frame that
     * parses yields its classification, one that does not, or whose object
     * makes the first `hasOwnProperty` call throw, is skipped.
     */
    method NotifyAboutTweets(tweets: seq<string>, parseJson: string -> Option<Obj>) returns (notices: seq<Notice>)
      ensures notices == Notices(tweets, parseJson)
    {
      notices := [];
      if |tweets| == 0 {
        return;
      }
      var i := 0;
      while i < |tweets|
        invariant 0 <= i <= |tweets|
        invariant notices == Notices(tweets[..i], parseJson)
      {
        match parseJson(tweets[i]) {
          case None =>
          case Some(tweet) =>
            if !ShadowsHasOwnProperty(tweet) {
              notices := notices + [Classify(tweet)];
            }
        }
        NoticesSnoc(tweets[..i], tweets[i], parseJson);
        assert tweets[..i + 1] == tweets[..i] + [tweets[i]];
        i := i + 1;
      }
      assert tweets[..i] == tweets;
    }
  }
}
