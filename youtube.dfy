/** The YouTube Data API backend (`src/youtube.rs`): the request URLs it
    builds and the mapping from the decoded JSON reply to search results.
    The HTTP client is a function from URL to reply; the reply's text is
    given already decoded by serde (or not, when it is not JSON). */
module Youtube {
  import opened Wrappers
  import opened Backend

  const YtApiUrl: string := "https://www.googleapis.com/youtube/v3"
  const YtVidBaseUrl: string := "https://www.youtube.com/watch?v="

  /** serde_json's `Value`; numbers keep their text. */
  datatype Json =
    | Null
    | Bool(b: bool)
    | Number(text: string)
    | Str(s: string)
    | Array(items: seq<Json>)
    | Object(fields: map<string, Json>)

  /** What the shared HTTP client gives back for one GET: a transport error,
      an error while reading the body, or the body as serde decodes it
      (`None` when the body is not JSON). */
  datatype HttpReply = SendFailed(error: string) | ReadFailed(error: string) | Body(json: Option<Json>)

  /** `value[key]`: a missing key, or a value that is not an object, gives `Null`. */
  function Get(v: Json, key: string): Json {
    if v.Object? && key in v.fields then v.fields[key] else Null
  }

  /** `value.as_str()`. */
  function AsStr(v: Json): Option<string> {
    if v.Str? then Some(v.s) else None
  }

  /** The value reached by following a path of keys through nested objects,
      or `Null` as soon as a key is missing. */
  function At(v: Json, path: seq<string>): Json
    decreases |path|
  {
    if path == [] then v
    else if v.Object? && path[0] in v.fields then At(v.fields[path[0]], path[1..])
    else Null
  }

  const TitleMissing: string := "Youtube response didn't contain title"
  const IdMissing: string := "Youtube response didn't contain id"
  const ItemsMissing: string := "Didn't get expected response from youtube api"
  const NotJson: string := "response is not JSON"

  /** Two-key lookup, spelled out so that the lemmas below are cheap. */
  lemma At2(v: Json, a: string, b: string)
    ensures At(v, [a, b]) == Get(Get(v, a), b)
  {
    assert [a, b][1..] == [b];
    assert [b][1..] == [];
    var w := Get(v, a);
    assert At(w, [b]) == Get(w, b) by {
      if w.Object? && b in w.fields {
        assert At(w, [b]) == At(w.fields[b], []);
      }
    }
    if v.Object? && a in v.fields {
      assert At(v, [a, b]) == At(w, [b]);
    }
  }

  lemma At4(v: Json, a: string, b: string, c: string, d: string)
    ensures At(v, [a, b, c, d]) == Get(Get(Get(Get(v, a), b), c), d)
  {
    assert [a, b, c, d][1..] == [b, c, d];
    assert [b, c, d][1..] == [c, d];
    At2(Get(Get(v, a), b), c, d);
  }

  /** The closure of `yt_json_parser` applied to one element of `items`. */
  function ParseItem(v: Json): (r: Outcome<SearchResult>)
    ensures r.Returned? <==> At(v, ["snippet", "title"]).Str? && At(v, ["id", "videoId"]).Str?
    ensures r.Panicked? ==>
              r.message == if At(v, ["snippet", "title"]).Str? then IdMissing else TitleMissing
    ensures r.Returned? ==> && r.value.title == At(v, ["snippet", "title"]).s
                            && r.value.id == At(v, ["id", "videoId"]).s
    ensures r.Returned? ==> (r.value.thumbnail.Some?
                             <==> At(v, ["snippet", "thumbnails", "default", "url"]).Str?)
    ensures r.Returned? && r.value.thumbnail.Some? ==>
              r.value.thumbnail.value == At(v, ["snippet", "thumbnails", "default", "url"]).s
  {
    At2(v, "snippet", "title");
    At2(v, "id", "videoId");
    At4(v, "snippet", "thumbnails", "default", "url");
    match AsStr(Get(Get(v, "snippet"), "title"))
    case None => Panicked(TitleMissing)
    case Some(title) =>
      match AsStr(Get(Get(v, "id"), "videoId"))
      case None => Panicked(IdMissing)
      case Some(id) =>
        var thumbnail := AsStr(Get(Get(Get(Get(v, "snippet"), "thumbnails"), "default"), "url"));
        Returned(SearchResult(thumbnail, id, title))
  }

  /** `items.iter().map(..).collect()`: one result per item, in order; the
      first item that cannot be read panics. */
  function ParseItems(items: seq<Json>): (r: Outcome<seq<SearchResult>>)
    ensures r.Returned? <==> forall i :: 0 <= i < |items| ==> ParseItem(items[i]).Returned?
    ensures r.Returned? ==> && |r.value| == |items|
                            && forall i :: 0 <= i < |items| ==> ParseItem(items[i]) == Returned(r.value[i])
    ensures r.Panicked? ==> exists i :: && 0 <= i < |items|
                                        && ParseItem(items[i]) == Panicked(r.message)
                                        && forall j :: 0 <= j < i ==> ParseItem(items[j]).Returned?
  {
    if items == [] then Returned([])
    else
      match ParseItem(items[0])
      case Panicked(m) => Panicked(m)
      case Returned(first) =>
        match ParseItems(items[1..])
        case Panicked(m) =>
          assert forall i :: 1 <= i < |items| ==> items[i] == items[1..][i - 1];
          Panicked(m)
        case Returned(rest) =>
          assert forall i :: 1 <= i < |items| ==> items[i] == items[1..][i - 1];
          Returned([first] + rest)
  }

  /** `yt_json_parser`: the results for the elements of `items`; a body
      that is not JSON, or whose `items` is not an array, panics. */
  function YtJsonParser(doc: Option<Json>): (r: Outcome<seq<SearchResult>>)
    ensures doc.None? ==> r == Panicked(NotJson)
    ensures doc.Some? && !Get(doc.value, "items").Array? ==> r == Panicked(ItemsMissing)
    ensures doc.Some? && Get(doc.value, "items").Array? ==>
              var items := Get(doc.value, "items").items;
              && (r.Returned? <==> forall i :: 0 <= i < |items| ==> ParseItem(items[i]).Returned?)
              && (r.Returned? ==> && |r.value| == |items|
                                  && forall i :: 0 <= i < |items| ==> Returned(r.value[i]) == ParseItem(items[i]))
  {
    match doc
    case None => Panicked(NotJson)
    case Some(x) =>
      match Get(x, "items")
      case Array(items) => ParseItems(items)
      case _ => Panicked(ItemsMissing)
  }

  /** An item without a thumbnail URL is still a result, with no thumbnail. */
  lemma {:induction false} ThumbnailNeverRequired(v: Json)
    requires At(v, ["snippet", "title"]).Str? && At(v, ["id", "videoId"]).Str?
    requires !At(v, ["snippet", "thumbnails", "default", "url"]).Str?
    ensures YtJsonParser(Some(Object(map["items" := Array([v])]))) ==
              Returned([SearchResult(None, At(v, ["id", "videoId"]).s, At(v, ["snippet", "title"]).s)])
  {
    var r := YtJsonParser(Some(Object(map["items" := Array([v])])));
    assert Get(Object(map["items" := Array([v])]), "items") == Array([v]);
    assert [v][0] == v;
    assert r.Returned? && |r.value| == 1 && Returned(r.value[0]) == ParseItem(v);
    assert r.value == [r.value[0]];
  }

  /** `keywords.replace(" ", "+")`: every space becomes a plus, nothing else changes. */
  function ReplaceSpaces(s: string): (r: string)
    ensures |r| == |s|
    ensures forall i :: 0 <= i < |s| ==> r[i] == if s[i] == ' ' then '+' else s[i]
  {
    if s == [] then []
    else [if s[0] == ' ' then '+' else s[0]] + ReplaceSpaces(s[1..])
  }

  /** Reading a `+` in a query string back as a space. */
  function PlusesToSpaces(s: string): (r: string)
    ensures |r| == |s|
    ensures forall i :: 0 <= i < |s| ==> r[i] == if s[i] == '+' then ' ' else s[i]
  {
    if s == [] then []
    else [if s[0] == '+' then ' ' else s[0]] + PlusesToSpaces(s[1..])
  }

  /** `gen_download_url`: the watch page of a video. */
  function GenDownloadUrl(videoId: string): string {
    YtVidBaseUrl + videoId
  }

  /** The video id named by a watch-page URL, if it is one. */
  function VideoIdOf(url: string): Option<string> {
    if YtVidBaseUrl <= url then Some(url[|YtVidBaseUrl|..]) else None
  }

  /** The download URL and the id determine each other. */
  lemma DownloadUrlNamesVideo(videoId: string, url: string)
    ensures GenDownloadUrl(videoId) == url <==> VideoIdOf(url) == Some(videoId)
  {
  }

  const SearchPrefix: string := YtApiUrl + "/search?part=snippet&q="
  const RelatedPrefix: string := YtApiUrl + "/search?part=snippet&relatedToVideoId="
  const TypeVideo: string := "&type=video"

  /** The search request: spaces in the keywords become `+`, no other escaping. */
  function SearchUrl(keywords: string): string {
    SearchPrefix + ReplaceSpaces(keywords) + TypeVideo
  }

  /** The related-videos request: the id goes in verbatim. */
  function RelatedUrl(videoId: string): string {
    RelatedPrefix + videoId + TypeVideo
  }

  /** The URL `hyper_request` actually fetches: the API key is appended. */
  function RequestUrl(url: string, youtubeApiKey: string): string {
    url + "&key=" + youtubeApiKey
  }

  /** The query of a search URL is the keywords with spaces as `+`: it holds no
      space, and keywords without a `+` are read back from it exactly. */
  lemma SearchUrlCarriesKeywords(keywords: string)
    ensures var u := SearchUrl(keywords);
            var q := u[|SearchPrefix|..|u| - |TypeVideo|];
            && SearchPrefix <= u
            && q == ReplaceSpaces(keywords)
            && ' ' !in q
            && ('+' !in keywords ==> PlusesToSpaces(q) == keywords)
  {
  }

  /** `hyper_request`: GET the URL with the key appended; a transport or read
      error panics, otherwise the body (as serde decodes it) is returned. */
  function HyperRequest(youtubeApiKey: string, http: string -> HttpReply, url: string)
    : (r: Outcome<Option<Json>>)
    ensures r.Returned? <==> http(RequestUrl(url, youtubeApiKey)).Body?
    ensures r.Returned? ==> r.value == http(RequestUrl(url, youtubeApiKey)).json
  {
    match http(RequestUrl(url, youtubeApiKey))
    case SendFailed(e) => Panicked(e)
    case ReadFailed(e) => Panicked(e)
    case Body(doc) => Returned(doc)
  }

  /** `YoutubePlayer::search`. */
  function Search(youtubeApiKey: string, http: string -> HttpReply, keywords: string)
    : (r: Outcome<seq<SearchResult>>)
    ensures var reply := http(RequestUrl(SearchUrl(keywords), youtubeApiKey));
            r == if reply.Body? then YtJsonParser(reply.json) else Panicked(reply.error)
  {
    match HyperRequest(youtubeApiKey, http, SearchUrl(keywords))
    case Panicked(m) => Panicked(m)
    case Returned(doc) => YtJsonParser(doc)
  }

  /** `YoutubePlayer::find_related_tracks`. */
  function FindRelatedTracks(youtubeApiKey: string, http: string -> HttpReply, videoId: string)
    : (r: Outcome<seq<SearchResult>>)
    ensures var reply := http(RequestUrl(RelatedUrl(videoId), youtubeApiKey));
            r == if reply.Body? then YtJsonParser(reply.json) else Panicked(reply.error)
  {
    match HyperRequest(youtubeApiKey, http, RelatedUrl(videoId))
    case Panicked(m) => Panicked(m)
    case Returned(doc) => YtJsonParser(doc)
  }

  /** A search depends on the network only through the one keyed search URL:
      two clients that agree on it give the same results. */
  lemma SearchAsksOnlyKeyedUrl(youtubeApiKey: string, h1: string -> HttpReply,
                               h2: string -> HttpReply, keywords: string)
    requires h1(RequestUrl(SearchUrl(keywords), youtubeApiKey)) == h2(RequestUrl(SearchUrl(keywords), youtubeApiKey))
    ensures Search(youtubeApiKey, h1, keywords) == Search(youtubeApiKey, h2, keywords)
  {
  }

  /** Likewise for related tracks: only the keyed related URL of that id matters. */
  lemma RelatedAsksOnlyKeyedUrl(youtubeApiKey: string, h1: string -> HttpReply,
                                h2: string -> HttpReply, videoId: string)
    requires h1(RequestUrl(RelatedUrl(videoId), youtubeApiKey)) == h2(RequestUrl(RelatedUrl(videoId), youtubeApiKey))
    ensures FindRelatedTracks(youtubeApiKey, h1, videoId) == FindRelatedTracks(youtubeApiKey, h2, videoId)
  {
  }

  /** `YoutubePlayer` as a `Backend`. */
  function YoutubePlayer(youtubeApiKey: string, http: string -> HttpReply): (b: Backend)
    ensures forall q :: var reply := http(RequestUrl(SearchUrl(q), youtubeApiKey));
              b.search(q) == if reply.Body? then YtJsonParser(reply.json) else Panicked(reply.error)
    ensures forall id :: var reply := http(RequestUrl(RelatedUrl(id), youtubeApiKey));
              b.findRelatedTracks(id) == if reply.Body? then YtJsonParser(reply.json) else Panicked(reply.error)
    ensures forall id :: b.genDownloadUrl(id) == YtVidBaseUrl + id
  {
    Backend(
      id => FindRelatedTracks(youtubeApiKey, http, id),
      q => Search(youtubeApiKey, http, q),
      GenDownloadUrl)
  }
}
