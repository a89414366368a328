/**
 * NightbotAPI: the calls the plugin makes to the Nightbot REST API
 * (src/nightbot-api.cpp). Every call goes through PerformRequest, which adds
 * the bearer token and hands the transfer to libcurl; the song queue is read
 * into SongItems and sorted by position.
 *
 * The access token is the value NightbotAuth::GetAccessToken returns at the
 * time of the call, a transfer is a Transport, and a JSON parser is a
 * parameter. The Qt thread pool the calls run on, the log and the signals are
 * not modelled: what a signal would carry is returned.
 */
module Api {
  import opened Wrappers
  import opened Json
  import opened Curl
  import Auth

  const ApiBase: string := "https://" + "api.nightbot.tv" + "/1/"
  const QueueUrl: string := ApiBase + "song_requests/" + "queue"
  const JsonContentType: string := "Content-Type: " + "application/json"

  // ---------------------------------------------------------------------------
  // One HTTP exchange

  /** HttpRequest: a GET without a body or extra headers unless the caller says otherwise. */
  datatype HttpRequest = HttpRequest(url: string, verb: string, body: string, headers: seq<string>)

  /** HttpResponse: the status (-1 for an internal failure), the body, and the libcurl failure, if any. */
  datatype HttpResponse = HttpResponse(httpCode: int, body: string, curlError: bool, errorMessage: string)

  /** What is handed to libcurl: the URL, the custom method, the header list and the POST fields, if set. */
  datatype CurlCall = CurlCall(url: string, verb: string, headers: seq<string>, postFields: Option<string>)

  function Get(url: string): HttpRequest
  {
    HttpRequest(url, "GET", "", [])
  }

  function BearerHeader(token: string): string
  {
    "Authorization: Bearer " + token
  }

  /** Only POST and PUT carry a body to libcurl. */
  predicate SendsBody(verb: string)
  {
    verb == "POST" || verb == "PUT"
  }

  /**
   * The transfer PerformRequest starts: none without a token or when libcurl
   * cannot start; otherwise the request's URL and method, the bearer header
   * followed by the caller's headers in their order, and the body for POST and PUT.
   */
  function CallOf(token: string, request: HttpRequest, transport: Transport): (call: Option<CurlCall>)
    ensures call.None? <==> token == "" || transport.InitFailed?
    ensures call.Some? ==>
              && call.value.url == request.url && call.value.verb == request.verb
              && |call.value.headers| == |request.headers| + 1
              && call.value.headers[0] == BearerHeader(token)
              && call.value.headers[1..] == request.headers
              && (call.value.postFields.Some? <==> SendsBody(request.verb))
              && (call.value.postFields.Some? ==> call.value.postFields.value == request.body)
  {
    if token == "" || transport.InitFailed? then None
    else
      Some(CurlCall(request.url, request.verb, [BearerHeader(token)] + request.headers,
                    if SendsBody(request.verb) then Some(request.body) else None))
  }

  /**
   * The response PerformRequest returns: a failure of its own (code -1 and a
   * message) without a token, when libcurl cannot start or when the transfer
   * fails; otherwise the status and the body the server sent, whatever the status.
   */
  function ResponseOf(token: string, transport: Transport): (r: HttpResponse)
    ensures r.curlError <==> !(token != "" && transport.Completed?)
    ensures r.curlError ==> r.httpCode == -1 && r.errorMessage != ""
    ensures token == "" ==> r == HttpResponse(-1, "", true, "No access token")
    ensures !r.curlError ==> r.httpCode == transport.code && r.body == transport.body && r.errorMessage == ""
    ensures token != "" && transport.Failed? ==> r.body == transport.received && r.errorMessage == transport.message
  {
    if token == "" then HttpResponse(-1, "", true, "No access token")
    else match transport
      case InitFailed => HttpResponse(-1, "", true, "cURL init failed")
      case Failed(message, received) => HttpResponse(-1, received, true, message)
      case Completed(code, body) => HttpResponse(code, body, false, "")
  }

  /**
   * PerformRequest: checks the token, builds the header list one header at a
   * time, runs the transfer and turns a transfer failure into code -1.
   */
  method PerformRequest(token: string, request: HttpRequest, transport: Transport)
    returns (response: HttpResponse, call: Option<CurlCall>)
    ensures call == CallOf(token, request, transport)
    ensures response == ResponseOf(token, transport)
  {
    if token == "" {
      return HttpResponse(-1, "", true, "No access token"), None;
    }
    if transport.InitFailed? {
      return HttpResponse(-1, "", true, "cURL init failed"), None;
    }
    var headers := [BearerHeader(token)];
    var i := 0;
    while i < |request.headers|
      invariant 0 <= i <= |request.headers|
      invariant headers == [BearerHeader(token)] + request.headers[..i]
    {
      headers := headers + [request.headers[i]];
      i := i + 1;
    }
    assert request.headers[..i] == request.headers;
    var postFields := None;
    if request.verb == "POST" || request.verb == "PUT" {
      postFields := Some(request.body);
    }
    call := Some(CurlCall(request.url, request.verb, headers, postFields));
    response := HttpResponse(0, "", false, "");
    match transport {
      case Completed(code, body) =>
        response := response.(httpCode := code, body := body);
      case Failed(message, received) =>
        response := response.(body := received, curlError := true, errorMessage := message, httpCode := -1);
    }
  }

  // ---------------------------------------------------------------------------
  // The requests

  /**
   * PerformRequest is handed the login's in-memory access token, so a request
   * goes out, once curl starts, exactly when the login is authenticated.
   */
  lemma RequestsNeedLogin(auth: Auth.NightbotAuth, request: HttpRequest, transport: Transport)
    requires !transport.InitFailed?
    ensures CallOf(auth.GetAccessToken(), request, transport).Some? <==> auth.IsAuthenticated()
    ensures !auth.IsAuthenticated() ==> ResponseOf(auth.GetAccessToken(), transport) == HttpResponse(-1, "", true, "No access token")
  {
  }

  function MeRequest(): HttpRequest
  {
    Get(ApiBase + "me")
  }

  function QueueRequest(): HttpRequest
  {
    Get(QueueUrl)
  }

  function PlayRequest(): HttpRequest
  {
    HttpRequest(QueueUrl + "/play", "POST", "", [])
  }

  function PauseRequest(): HttpRequest
  {
    HttpRequest(QueueUrl + "/pause", "POST", "", [])
  }

  function SkipRequest(): HttpRequest
  {
    HttpRequest(QueueUrl + "/skip", "POST", "", [])
  }

  /** DELETE of one queue entry; an empty id asks for nothing. */
  function DeleteRequest(songId: string): Option<HttpRequest>
  {
    if songId == "" then None else Some(HttpRequest(QueueUrl + "/" + songId, "DELETE", "", []))
  }

  /** POST that moves one queue entry to the front; an empty id asks for nothing. */
  function PromoteRequest(songId: string): Option<HttpRequest>
  {
    if songId == "" then None else Some(HttpRequest(QueueUrl + "/" + songId + "/promote", "POST", "", []))
  }

  /** The compact JSON text of {"enabled": b}. */
  function EnabledBody(enabled: bool): string
  {
    "{\"enabled\":" + (if enabled then "true" else "false") + "}"
  }

  function SetEnabledRequest(enabled: bool): HttpRequest
  {
    HttpRequest(ApiBase + "song_requests", "PUT", EnabledBody(enabled), [JsonContentType])
  }

  /** The queue-entry URLs give the song id back: the text between the queue URL's "/" and the suffix. */
  lemma SongIdInUrls(songId: string)
    requires songId != ""
    ensures DeleteRequest(songId).Some? && PromoteRequest(songId).Some?
    ensures var url := DeleteRequest(songId).value.url;
            |url| > |QueueUrl| + 1 && url[..|QueueUrl| + 1] == QueueUrl + "/" && url[|QueueUrl| + 1..] == songId
    ensures var url := PromoteRequest(songId).value.url;
            |url| == |QueueUrl| + 1 + |songId| + 8
            && url[..|QueueUrl| + 1] == QueueUrl + "/"
            && url[|QueueUrl| + 1..|url| - 8] == songId && url[|url| - 8..] == "/promote"
  {
    var p := QueueUrl + "/";
    var d := DeleteRequest(songId).value.url;
    assert d == p + songId;
    var u := PromoteRequest(songId).value.url;
    assert u == p + songId + "/promote";
    assert u[..|p|] == p;
    assert u[|p|..|u| - 8] == songId;
  }

  /** Distinct songs are distinct requests, so a request names exactly one song. */
  lemma SongRequestsInjective(a: string, b: string)
    requires DeleteRequest(a) == DeleteRequest(b) || PromoteRequest(a) == PromoteRequest(b)
    ensures a == b
  {
    if a != "" && b != "" {
      SongIdInUrls(a);
      SongIdInUrls(b);
    }
  }

  // ---------------------------------------------------------------------------
  // Commands

  /** ControlPlay: a POST to .../queue/play, successful for a 2xx status. */
  method ControlPlay(token: string, transport: Transport) returns (call: Option<CurlCall>, succeeded: bool)
    ensures call == CallOf(token, PlayRequest(), transport)
    ensures succeeded <==> token != "" && transport.Completed? && IsSuccess(transport.code)
  {
    var response;
    response, call := PerformRequest(token, PlayRequest(), transport);
    succeeded := response.httpCode >= 200 && response.httpCode < 300;
  }

  /** ControlPause: a POST to .../queue/pause, successful for a 2xx status. */
  method ControlPause(token: string, transport: Transport) returns (call: Option<CurlCall>, succeeded: bool)
    ensures call == CallOf(token, PauseRequest(), transport)
    ensures succeeded <==> token != "" && transport.Completed? && IsSuccess(transport.code)
  {
    var response;
    response, call := PerformRequest(token, PauseRequest(), transport);
    succeeded := response.httpCode >= 200 && response.httpCode < 300;
  }

  /** ControlSkip: a POST to .../queue/skip whose response is ignored. */
  method ControlSkip(token: string, transport: Transport) returns (call: Option<CurlCall>)
    ensures call == CallOf(token, SkipRequest(), transport)
    ensures call.Some? ==> call.value.postFields == Some("")
  {
    var ignored;
    ignored, call := PerformRequest(token, SkipRequest(), transport);
  }

  /** DeleteSong: nothing for an empty id, otherwise a DELETE without a body. */
  method DeleteSong(token: string, songId: string, transport: Transport) returns (call: Option<CurlCall>)
    ensures songId == "" ==> call.None?
    ensures songId != "" ==> call == CallOf(token, DeleteRequest(songId).value, transport)
    ensures call.Some? ==> call.value.verb == "DELETE" && call.value.postFields.None?
  {
    if songId == "" {
      return None;
    }
    var ignored;
    ignored, call := PerformRequest(token, HttpRequest(QueueUrl + "/" + songId, "DELETE", "", []), transport);
  }

  /** PromoteSong: nothing for an empty id, otherwise a POST to .../queue/<id>/promote. */
  method PromoteSong(token: string, songId: string, transport: Transport) returns (call: Option<CurlCall>)
    ensures songId == "" ==> call.None?
    ensures songId != "" ==> call == CallOf(token, PromoteRequest(songId).value, transport)
  {
    if songId == "" {
      return None;
    }
    var ignored;
    ignored, call := PerformRequest(token, HttpRequest(QueueUrl + "/" + songId + "/promote", "POST", "", []), transport);
  }

  /** SetSREnabled: a PUT of {"enabled": b} with a JSON content type after the bearer header. */
  method SetSREnabled(token: string, enabled: bool, transport: Transport) returns (call: Option<CurlCall>)
    ensures call == CallOf(token, SetEnabledRequest(enabled), transport)
    ensures call.Some? ==>
              call.value.headers == [BearerHeader(token), JsonContentType]
              && call.value.postFields == Some(EnabledBody(enabled))
  {
    var request := HttpRequest(ApiBase + "song_requests", "PUT", EnabledBody(enabled), []);
    request := request.(headers := request.headers + [JsonContentType]);
    assert request == SetEnabledRequest(enabled);
    var ignored;
    ignored, call := PerformRequest(token, request, transport);
  }

  // ---------------------------------------------------------------------------
  // The user

  /** The display name in a /me payload: "" when it does not parse or has no `user` object. */
  function DisplayName(parsed: Option<Json>): (name: string)
    ensures parsed.None? ==> name == ""
    ensures name != "" ==>
              && parsed.Some? && parsed.value.JObject? && "user" in parsed.value.fields
              && parsed.value.fields["user"].JObject?
              && Field(parsed.value.fields["user"].fields, "displayName") == JString(name)
    ensures parsed.Some? && "user" in AsObject(parsed.value) && AsObject(parsed.value)["user"].JObject? ==>
              name == AsString(Field(AsObject(parsed.value)["user"].fields, "displayName"))
  {
    match parsed
    case None => ""
    case Some(doc) =>
      var root := AsObject(doc);
      if "user" in root && root["user"].JObject? then AsString(Field(root["user"].fields, "displayName")) else ""
  }

  /** FetchUserInfo: the name userInfoFetched carries; "" unless the status is 200. */
  method FetchUserInfo(token: string, transport: Transport, parse: string -> Option<Json>)
    returns (call: Option<CurlCall>, userName: string)
    ensures call == CallOf(token, MeRequest(), transport)
    ensures userName == if token != "" && transport.Completed? && transport.code == 200
                        then DisplayName(parse(transport.body)) else ""
  {
    var response;
    response, call := PerformRequest(token, MeRequest(), transport);
    if response.httpCode == 200 {
      userName := DisplayName(parse(response.body));
    } else {
      userName := "";
    }
  }

  // ---------------------------------------------------------------------------
  // The song queue

  datatype SongItem = SongItem(id: string, title: string, artist: string, user: string, position: int, duration: int)

  /** The item for `_currentSong`: position 0, and the placeholder user when `user` is not an object. */
  function CurrentSongItem(song: map<string, Json>, playlistUser: string): (item: SongItem)
    ensures item.position == 0
    ensures item.id == AsString(Field(song, "_id"))
    ensures item.user == if "user" in song && song["user"].JObject?
                         then AsString(Field(song["user"].fields, "displayName")) else playlistUser
    ensures item.title == AsString(Field(AsObject(Field(song, "track")), "title"))
    ensures item.artist == AsString(Field(AsObject(Field(song, "track")), "artist"))
    ensures item.duration == AsInt(Field(AsObject(Field(song, "track")), "duration"))
  {
    var track := AsObject(Field(song, "track"));
    SongItem(AsString(Field(song, "_id")),
             AsString(Field(track, "title")),
             AsString(Field(track, "artist")),
             if "user" in song && song["user"].JObject? then AsString(Field(song["user"].fields, "displayName"))
             else playlistUser,
             0,
             AsInt(Field(track, "duration")))
  }

  /** The item for one entry of `queue`, which keeps its `_position`. */
  function QueueEntryItem(value: Json): (item: SongItem)
    ensures item.position == AsInt(Field(AsObject(value), "_position"))
    ensures item.id == AsString(Field(AsObject(value), "_id"))
    ensures item.title == AsString(Field(AsObject(Field(AsObject(value), "track")), "title"))
    ensures item.artist == AsString(Field(AsObject(Field(AsObject(value), "track")), "artist"))
    ensures item.duration == AsInt(Field(AsObject(Field(AsObject(value), "track")), "duration"))
    ensures item.user == AsString(Field(AsObject(Field(AsObject(value), "user")), "displayName"))
  {
    var song := AsObject(value);
    var track := AsObject(Field(song, "track"));
    SongItem(AsString(Field(song, "_id")),
             AsString(Field(track, "title")),
             AsString(Field(track, "artist")),
             AsString(Field(AsObject(Field(song, "user")), "displayName")),
             AsInt(Field(song, "_position")),
             AsInt(Field(track, "duration")))
  }

  /** The items of the queue entries, in their order. */
  function QueueEntries(values: seq<Json>): seq<SongItem>
  {
    if |values| == 0 then [] else QueueEntries(values[..|values| - 1]) + [QueueEntryItem(values[|values| - 1])]
  }

  /** One item per entry, each built from the entry at its place. */
  lemma {:induction false} QueueEntriesAt(values: seq<Json>)
    ensures |QueueEntries(values)| == |values|
    ensures forall i :: 0 <= i < |values| ==> QueueEntries(values)[i] == QueueEntryItem(values[i])
  {
    if |values| > 0 {
      var init := values[..|values| - 1];
      QueueEntriesAt(init);
      assert forall i :: 0 <= i < |init| ==> values[i] == init[i];
    }
  }

  /** The current song, when `_currentSong` is an object. */
  function CurrentSong(root: map<string, Json>, playlistUser: string): seq<SongItem>
  {
    if "_currentSong" in root && root["_currentSong"].JObject? then [CurrentSongItem(root["_currentSong"].fields, playlistUser)]
    else []
  }

  /** The items of a queue payload in the order they are appended: the current song, then the queue. */
  function SongItems(root: map<string, Json>, playlistUser: string): seq<SongItem>
  {
    CurrentSong(root, playlistUser) + QueueEntries(AsArray(Field(root, "queue")))
  }

  /** The payload root, when the status is 200 and the body parses to an object. */
  function QueuePayload(token: string, transport: Transport, parse: string -> Option<Json>): (root: Option<map<string, Json>>)
    ensures root.Some? <==> token != "" && transport.Completed? && transport.code == 200
                            && parse(transport.body).Some? && parse(transport.body).value.JObject?
    ensures root.Some? ==> parse(transport.body) == Some(JObject(root.value))
  {
    if token != "" && transport.Completed? && transport.code == 200 then
      match parse(transport.body)
      case Some(JObject(root)) => Some(root)
      case _ => None
    else None
  }

  /** The payload as read off the response PerformRequest builds. */
  lemma PayloadOfResponse(token: string, transport: Transport, parse: string -> Option<Json>)
    ensures QueuePayload(token, transport, parse)
            == var response := ResponseOf(token, transport);
               var doc := parse(response.body);
               if response.httpCode == 200 && doc.Some? && doc.value.JObject? then Some(doc.value.fields) else None
  {
  }

  predicate SortedByPosition(items: seq<SongItem>)
  {
    forall i, j :: 0 <= i < j < |items| ==> items[i].position <= items[j].position
  }

  /** The in-place sort of the item list by ascending position (not stable, like std::sort). */
  method SortByPosition(a: array<SongItem>)
    modifies a
    ensures SortedByPosition(a[..])
    ensures multiset(a[..]) == multiset(old(a[..]))
  {
    var i := 0;
    while i < a.Length
      invariant 0 <= i <= a.Length
      invariant SortedByPosition(a[..i])
      invariant multiset(a[..]) == multiset(old(a[..]))
    {
      InsertLast(a, i);
      i := i + 1;
    }
    assert a[..i] == a[..];
  }

  /** Moves a[i] down into the sorted a[..i], so that a[..i + 1] is sorted. */
  method InsertLast(a: array<SongItem>, i: nat)
    requires i < a.Length && SortedByPosition(a[..i])
    modifies a
    ensures SortedByPosition(a[..i + 1])
    ensures multiset(a[..]) == multiset(old(a[..]))
  {
    var j := i;
    while j > 0 && a[j - 1].position > a[j].position
      invariant 0 <= j <= i
      invariant multiset(a[..]) == multiset(old(a[..]))
      invariant forall k, l :: 0 <= k < l <= i && k != j && l != j ==> a[k].position <= a[l].position
      invariant forall l :: j < l <= i ==> a[j].position < a[l].position
    {
      SwapDown(a, j);
      j := j - 1;
    }
  }

  /** Exchanges a[j - 1] and a[j]. */
  method SwapDown(a: array<SongItem>, j: nat)
    requires 0 < j < a.Length
    modifies a
    ensures a[..] == old(a[..])[j - 1 := old(a[j])][j := old(a[j - 1])]
    ensures multiset(a[..]) == multiset(old(a[..]))
  {
    a[j - 1], a[j] := a[j], a[j - 1];
  }

  /** The items of a queue payload, appended one queue entry at a time. */
  method CollectItems(root: map<string, Json>, playlistUser: string) returns (items: seq<SongItem>)
    ensures items == SongItems(root, playlistUser)
  {
    var current := CurrentSong(root, playlistUser);
    items := current;
    var values := AsArray(Field(root, "queue"));
    var i := 0;
    while i < |values|
      invariant 0 <= i <= |values|
      invariant items == current + QueueEntries(values[..i])
    {
      QueueEntriesSnoc(values, i);
      AppendAssoc(current, QueueEntries(values[..i]), [QueueEntryItem(values[i])]);
      items := items + [QueueEntryItem(values[i])];
      i := i + 1;
    }
    assert values[..i] == values;
  }

  lemma QueueEntriesSnoc(values: seq<Json>, i: nat)
    requires i < |values|
    ensures QueueEntries(values[..i + 1]) == QueueEntries(values[..i]) + [QueueEntryItem(values[i])]
  {
    assert values[..i + 1][..i] == values[..i];
  }

  lemma AppendAssoc<T>(a: seq<T>, b: seq<T>, c: seq<T>)
    ensures a + b + c == a + (b + c)
  {
  }

  /** The items sorted by position, through an array sorted in place. */
  method Sorted(items: seq<SongItem>) returns (sorted: seq<SongItem>)
    ensures SortedByPosition(sorted)
    ensures multiset(sorted) == multiset(items)
  {
    var a := new SongItem[|items|](k requires 0 <= k < |items| => items[k]);
    assert a[..] == items;
    SortByPosition(a);
    sorted := a[..];
  }

  /**
   * FetchSongQueue: the status, when the payload carries `_requestsEnabled`,
   * and the list songQueueFetched carries: the current song and the queue
   * entries, sorted by position; empty unless the status is 200 and the body
   * is a JSON object.
   */
  method FetchSongQueue(token: string, transport: Transport, parse: string -> Option<Json>, playlistUser: string)
    returns (call: Option<CurlCall>, srStatus: Option<bool>, queue: seq<SongItem>)
    ensures call == CallOf(token, QueueRequest(), transport)
    ensures srStatus == match QueuePayload(token, transport, parse)
                        case Some(root) => if "_requestsEnabled" in root then Some(AsBool(root["_requestsEnabled"])) else None
                        case None => None
    ensures SortedByPosition(queue)
    ensures multiset(queue) == match QueuePayload(token, transport, parse)
                               case Some(root) => multiset(SongItems(root, playlistUser))
                               case None => multiset{}
  {
    var response;
    response, call := PerformRequest(token, QueueRequest(), transport);
    PayloadOfResponse(token, transport, parse);
    srStatus := None;
    var items: seq<SongItem> := [];
    if response.httpCode == 200 {
      var doc := parse(response.body);
      if doc.Some? && doc.value.JObject? {
        var root := doc.value.fields;
        if "_requestsEnabled" in root {
          srStatus := Some(AsBool(root["_requestsEnabled"]));
        }
        items := CollectItems(root, playlistUser);
      }
    }
    queue := Sorted(items);
  }

  /**
   * When every queue entry has a position above 0, the current song, if there
   * is one, comes first in the sorted list.
   */
  lemma CurrentSongLeads(root: map<string, Json>, playlistUser: string, queue: seq<SongItem>)
    requires SortedByPosition(queue)
    requires multiset(queue) == multiset(SongItems(root, playlistUser))
    requires "_currentSong" in root && root["_currentSong"].JObject?
    requires forall v :: v in AsArray(Field(root, "queue")) ==> AsInt(Field(AsObject(v), "_position")) > 0
    ensures |queue| > 0 && queue[0] == CurrentSongItem(root["_currentSong"].fields, playlistUser)
  {
    var current := CurrentSongItem(root["_currentSong"].fields, playlistUser);
    var items := SongItems(root, playlistUser);
    var values := AsArray(Field(root, "queue"));
    QueueEntriesAt(values);
    forall j | 1 <= j < |items| ensures items[j].position > current.position {
      assert items[j] == QueueEntryItem(values[j - 1]);
      assert values[j - 1] in values;
    }
    SmallestLeads(queue, items);
  }

  /** A sorted permutation starts with the element that is below all the others. */
  lemma SmallestLeads(sorted: seq<SongItem>, items: seq<SongItem>)
    requires SortedByPosition(sorted) && multiset(sorted) == multiset(items)
    requires |items| > 0 && forall j :: 1 <= j < |items| ==> items[j].position > items[0].position
    ensures |sorted| > 0 && sorted[0] == items[0]
  {
    assert items[0] in multiset(sorted);
    var k :| 0 <= k < |sorted| && sorted[k] == items[0];
    assert sorted[0].position <= items[0].position;
    assert sorted[0] in multiset(items);
    var m :| 0 <= m < |items| && items[m] == sorted[0];
  }
}
