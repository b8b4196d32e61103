/** `src/download.rs`: the thumbnail cache over the local filesystem and the
    audio download through youtube-dl. The filesystem and the requests sent
    by the shared HTTP client live in a `Host`; what the server answers is a
    parameter. */
module Download {
  import opened Wrappers
  import YoutubeDl

  type Bytes = seq<bv8>

  /** The downloader's configuration: where audio and thumbnails go. */
  datatype Downloader = Downloader(musicDlPath: string, thumbnailCachePath: string)

  /** How the GET of a thumbnail ends: the request fails, the body breaks off
      while being copied into the file (leaving what was copied), or the
      whole body is copied. */
  datatype Fetch = RequestFailed | CopyFailed(partial: Bytes) | Fetched(body: Bytes)

  /** The machine the program runs on: its files by path, and the URLs the
      HTTP client has requested, in order. */
  class Host {
    var files: map<string, Bytes>
    var requested: seq<string>

    constructor (files: map<string, Bytes>)
      ensures this.files == files && requested == []
    {
      this.files := files;
      requested := [];
    }
  }

  /** `url.rsplitn(2, '/')` first piece: the text after the last `/`, or the
      whole URL when it has none. */
  function LastSegment(url: string): (s: string)
    ensures |s| <= |url| && forall i :: 0 <= i < |s| ==> s[i] == url[|url| - |s| + i]
    ensures '/' !in s
    ensures |s| < |url| ==> url[|url| - |s| - 1] == '/'
    decreases |url|
  {
    if url == [] then []
    else if url[|url| - 1] == '/' then []
    else LastSegment(url[..|url| - 1]) + [url[|url| - 1]]
  }

  /** The last segment is exactly what follows the last slash. */
  lemma {:induction false} LastSegmentAfterSlash(prefix: string, segment: string)
    requires '/' !in segment
    ensures LastSegment(prefix + "/" + segment) == segment
  {
    var base := prefix + "/";
    var url := base + segment;
    if segment == [] {
      assert url == base;
      assert url[|url| - 1] == '/';
    } else {
      var init, last := segment[..|segment| - 1], segment[|segment| - 1];
      assert segment == init + [last];
      assert url == (base + init) + [last];
      assert url[..|url| - 1] == base + init;
      LastSegmentAfterSlash(prefix, init);
      assert LastSegment(url) == LastSegment(base + init) + [last];
    }
  }

  /** `PathBuf::join` on Unix: an absolute name replaces the directory;
      otherwise a separator is added unless the directory is empty or
      already ends with one. */
  function Join(dir: string, name: string): (r: string)
    ensures |name| <= |r| && forall i :: 0 <= i < |name| ==> r[|r| - |name| + i] == name[i]
    ensures name == [] || name[0] != '/' ==> |dir| <= |r| && forall i :: 0 <= i < |dir| ==> r[i] == dir[i]
    ensures name != [] && name[0] == '/' ==> r == name
    ensures (name == [] || name[0] != '/') && (dir == [] || dir[|dir| - 1] == '/') ==> |r| == |dir| + |name|
    ensures (name == [] || name[0] != '/') && dir != [] && dir[|dir| - 1] != '/' ==>
              |r| == |dir| + 1 + |name| && r[|dir|] == '/'
  {
    if name != [] && name[0] == '/' then name
    else if dir == [] || dir[|dir| - 1] == '/' then dir + name
    else dir + "/" + name
  }

  /** Where the thumbnail of `url` for video `uid` is cached. */
  function ThumbnailPath(cacheDir: string, url: string, uid: string): string {
    Join(cacheDir, uid + "_" + LastSegment(url))
  }

  /** The cache file is named `<uid>_<last segment>` and sits in the cache
      directory, joined by one separator unless the directory is empty or
      already ends with one; a `uid` starting with `/` makes the name
      absolute and the directory is dropped. */
  lemma ThumbnailPathShape(cacheDir: string, url: string, uid: string)
    ensures var name := uid + "_" + LastSegment(url);
            var path := ThumbnailPath(cacheDir, url, uid);
            && |name| <= |path| && path[|path| - |name|..] == name
            && (uid == [] || uid[0] != '/' ==> cacheDir <= path)
            && (uid != [] && uid[0] == '/' ==> path == name)
            && ((uid == [] || uid[0] != '/') && (cacheDir == [] || cacheDir[|cacheDir| - 1] == '/') ==>
                  path == cacheDir + name)
            && ((uid == [] || uid[0] != '/') && cacheDir != [] && cacheDir[|cacheDir| - 1] != '/' ==>
                  path == cacheDir + "/" + name)
  {
  }

  /** The effect of one `download_thumbnail` call on the host, and its result. */
  datatype CacheStep = CacheStep(files: map<string, Bytes>, requested: seq<string>, result: Option<string>)

  /** `download_thumbnail` on values: no URL, nothing happens; a cached file
      is returned as it is; otherwise the file is created empty, the URL is
      requested once, and only a complete copy yields the path. */
  function ThumbnailLookup(cacheDir: string, files: map<string, Bytes>, requested: seq<string>,
                           url: Option<string>, uid: string, fetch: Fetch): (r: CacheStep)
    ensures files.Keys <= r.files.Keys
    ensures r.requested == requested || (url.Some? && r.requested == requested + [url.value])
    ensures r.result.Some? ==> && url.Some?
                               && r.result.value == ThumbnailPath(cacheDir, url.value, uid)
                               && r.result.value in r.files
  {
    match url
    case None => CacheStep(files, requested, None)
    case Some(u) =>
      var path := ThumbnailPath(cacheDir, u, uid);
      if path in files then CacheStep(files, requested, Some(path))
      else
        var asked := requested + [u];
        match fetch
        case RequestFailed => CacheStep(files[path := []], asked, None)
        case CopyFailed(partial) => CacheStep(files[path := partial], asked, None)
        case Fetched(body) => CacheStep(files[path := body], asked, Some(path))
  }

  /** Without a URL there is no request, no file and no path. */
  lemma NoUrlNoEffect(cacheDir: string, files: map<string, Bytes>, requested: seq<string>,
                      uid: string, fetch: Fetch)
    ensures ThumbnailLookup(cacheDir, files, requested, None, uid, fetch) == CacheStep(files, requested, None)
  {
  }

  /** A cache hit returns the cached path with no request and no change to disk. */
  lemma CacheHitIsFree(cacheDir: string, files: map<string, Bytes>, requested: seq<string>,
                       url: string, uid: string, fetch: Fetch)
    requires ThumbnailPath(cacheDir, url, uid) in files
    ensures ThumbnailLookup(cacheDir, files, requested, Some(url), uid, fetch)
            == CacheStep(files, requested, Some(ThumbnailPath(cacheDir, url, uid)))
  {
  }

  /** A miss requests the URL once and always leaves the cache file behind;
      the path is returned exactly when the body was copied whole, and no
      other file changes. */
  lemma CacheMiss(cacheDir: string, files: map<string, Bytes>, requested: seq<string>,
                  url: string, uid: string, fetch: Fetch)
    requires ThumbnailPath(cacheDir, url, uid) !in files
    ensures var path := ThumbnailPath(cacheDir, url, uid);
            var step := ThumbnailLookup(cacheDir, files, requested, Some(url), uid, fetch);
            && step.requested == requested + [url]
            && step.files.Keys == files.Keys + {path}
            && (forall p :: p in files ==> step.files[p] == files[p])
            && (step.result.Some? <==> fetch.Fetched?)
            && (step.result.Some? ==> step.result.value == path && step.files[path] == fetch.body)
  {
  }

  /** Calling twice with the same arguments requests the URL at most once:
      the second call finds the file the first one created, whatever the
      first request's fate, and changes nothing. */
  lemma SecondCallIsCacheHit(cacheDir: string, files: map<string, Bytes>,
                                               requested: seq<string>, url: Option<string>,
                                               uid: string, first: Fetch, second: Fetch)
    ensures var s1 := ThumbnailLookup(cacheDir, files, requested, url, uid, first);
            var s2 := ThumbnailLookup(cacheDir, s1.files, s1.requested, url, uid, second);
            && s2.files == s1.files && s2.requested == s1.requested
            && |s2.requested| <= |requested| + 1
            && (url.Some? ==> s2.result == Some(ThumbnailPath(cacheDir, url.value, uid)))
  {
  }

  /** A failed request leaves an empty file that later calls take for a
      cached thumbnail: a hit does not imply a complete earlier fetch. */
  lemma FailedFetchBecomesHit(cacheDir: string, files: map<string, Bytes>, requested: seq<string>,
                              url: string, uid: string, second: Fetch)
    requires ThumbnailPath(cacheDir, url, uid) !in files
    ensures var path := ThumbnailPath(cacheDir, url, uid);
            var s1 := ThumbnailLookup(cacheDir, files, requested, Some(url), uid, RequestFailed);
            var s2 := ThumbnailLookup(cacheDir, s1.files, s1.requested, Some(url), uid, second);
            && s1.result == None && s1.files[path] == []
            && s2.result == Some(path) && s2.files[path] == []
  {
  }

  /** `Downloader::download_thumbnail`, changing the host in place. */
  method DownloadThumbnail(d: Downloader, host: Host, url: Option<string>, uid: string, fetch: Fetch)
    returns (r: Option<string>)
    modifies host
    ensures CacheStep(host.files, host.requested, r)
            == ThumbnailLookup(d.thumbnailCachePath, old(host.files), old(host.requested), url, uid, fetch)
  {
    if url.None? {
      return None;
    }
    var u := url.value;
    var filePath := Join(d.thumbnailCachePath, uid + "_" + LastSegment(u));
    ghost var before := host.files;
    assert filePath == ThumbnailPath(d.thumbnailCachePath, u, uid);
    if filePath in host.files {
      return Some(filePath);
    }
    host.files := host.files[filePath := []];
    host.requested := host.requested + [u];
    match fetch {
      case RequestFailed =>
        r := None;
      case CopyFailed(partial) =>
        host.files := host.files[filePath := partial];
        assert host.files == before[filePath := partial];
        r := None;
      case Fetched(body) =>
        host.files := host.files[filePath := body];
        assert host.files == before[filePath := body];
        r := Some(filePath);
    }
  }

  /** `Downloader::download_audio_from_url`: the same command line and the
      same reading of stdout as `YoutubeDl`, into the music directory. */
  function DownloadAudioFromUrl(d: Downloader, url: string, youtubeDl: seq<string> -> YoutubeDl.Spawned)
    : (r: Outcome<Result<string, string>>)
    ensures r == YoutubeDl.DownloadAudioFromUrl(d.musicDlPath, url, youtubeDl)
  {
    match youtubeDl(YoutubeDl.Argv(YoutubeDl.OutputTemplate(d.musicDlPath), url))
    case SpawnError(e) => Returned(Err(e))
    case Exited(_, stdout) =>
      match YoutubeDl.ParseDestination(stdout)
      case None => Panicked("called `Option::unwrap()` on a `None` value")
      case Some(path) => Returned(Ok(path))
  }
}
