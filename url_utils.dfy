/**
 * `utils/utils.py`: where the SHACL file of an ontology is downloaded from,
 * where it is kept locally, and which namespaces of a SHACL graph belong to
 * the ENVITED-X ontologies.
 */
module UrlUtils {
  import opened Wrappers
  import opened ODict
  import opened PyStr
  import opened PyPath

  /** The host of the ENVITED-X ontologies. */
  const EnvitedHost := "ontologies.envited-x.net"
  /** `g_envited_url`: the prefix of every ENVITED-X ontology URL. */
  const EnvitedUrl := "https://" + EnvitedHost
  /** `g_gaiax_server`: where the ontology repository's raw files are served. */
  const GaiaxServer := "https://raw.githubusercontent.com/GAIA-X4PLC-AAD/ontology-management-base"
  /** `g_shacle_folder`: the local folder for downloaded SHACL files. */
  const ShacleFolder := "shacles"

  predicate Envited(url: string)
  {
    StartsWith(url, EnvitedUrl)
  }

  /** An ENVITED-X URL is an `https` URL with a network location. */
  lemma EnvitedHttps(url: string)
    requires Envited(url)
    ensures StartsWith(url, "https://")
  {
    assert url[..8] == url[..|EnvitedUrl|][..8];
  }

  // ------------------------------------------------------------ URL parsing

  /** The characters `urlsplit` deletes from anywhere in a URL. */
  predicate Unsafe(c: char)
  {
    c == '\t' || c == '\r' || c == '\n'
  }

  function RemoveUnsafe(s: string): (r: string)
    ensures forall i :: 0 <= i < |r| ==> !Unsafe(r[i])
  {
    if |s| == 0 then ""
    else (if Unsafe(s[0]) then "" else [s[0]]) + RemoveUnsafe(s[1..])
  }

  /** A URL without tabs and line breaks is kept as it is. */
  lemma {:induction false} RemoveUnsafeKeeps(s: string)
    requires forall i :: 0 <= i < |s| ==> !Unsafe(s[i])
    ensures RemoveUnsafe(s) == s
  {
    if |s| > 0 {
      RemoveUnsafeKeeps(s[1..]);
    }
  }

  /** The text before the first `c`, or all of it. */
  function Before(s: string, c: char): (r: string)
    ensures c !in r && StartsWith(s, r)
  {
    match IndexOf(s, [c])
    case Some(i) =>
      assert forall j :: 0 <= j < i ==> !OccursAt(s, [c], j) && s[j..j + 1] == [s[j]];
      s[..i]
    case None =>
      assert forall j :: 0 <= j < |s| ==> !OccursAt(s, [c], j) && s[j..j + 1] == [s[j]];
      s
  }

  /** The index where the network location that starts `s` ends: the first
      `/`, `?` or `#`, or the end. */
  function NetlocEnd(s: string): (r: nat)
    ensures r <= |s| && forall j :: 0 <= j < r ==> s[j] != '/' && s[j] != '?' && s[j] != '#'
    ensures r < |s| ==> s[r] == '/' || s[r] == '?' || s[r] == '#'
  {
    if |s| == 0 || s[0] == '/' || s[0] == '?' || s[0] == '#' then 0
    else 1 + NetlocEnd(s[1..])
  }

  /** `_splitparams`: the parameters after a `;` in the last segment are cut
      off the path. */
  function StripParams(path: string): string
  {
    match LastIndexOfChar(path, '/')
    case Some(k) =>
      (match IndexOf(path[k..], ";")
       case Some(i) => path[..k + i]
       case None => path)
    case None =>
      (match IndexOf(path, ";")
       case Some(i) => path[..i]
       case None => path)
  }

  /** `urlparse(url).path` of a URL of the `https` scheme with a network
      location: what follows the network location, up to the fragment, the
      query and the parameters. */
  function HttpsPath(url: string): string
    requires StartsWith(url, "https://")
  {
    var rest := RemoveUnsafe(url[8..]);
    var afterNetloc := rest[NetlocEnd(rest)..];
    StripParams(Before(Before(afterNetloc, '#'), '?'))
  }

  /** The non-empty texts among `pieces`, in order. */
  function NonEmpty(pieces: seq<string>): (r: seq<string>)
    ensures forall i :: 0 <= i < |r| ==> r[i] != "" && r[i] in pieces
  {
    if |pieces| == 0 then []
    else (if pieces[0] != "" then [pieces[0]] else []) + NonEmpty(pieces[1..])
  }

  /** The path of an ENVITED-X URL split on `/`. */
  function PathPieces(url: string): seq<string>
    requires Envited(url)
  {
    EnvitedHttps(url);
    Split(HttpsPath(url), "/")
  }

  /** The path segments `get_url_for_download` uses: the non-empty pieces of
      the path. */
  function Segments(url: string): seq<string>
    requires Envited(url)
  {
    NonEmpty(PathPieces(url))
  }

  // ------------------------------------------------------------ download URL

  /** The raw-file URL of the SHACL file of the ontology named `name`. */
  function ShaclFileUrl(name: string): string
  {
    GaiaxServer + "/main/" + name + "/" + name + "_shacl.ttl"
  }

  /** `get_url_for_download`: an ENVITED-X URL is redirected to the SHACL
      file of the ontology its first path segment names, and has no result
      when its path has no segment; any other URL has every `#` replaced by
      `.ttl`. */
  function GetUrlForDownload(url: string): (r: Option<string>)
    ensures r.None? <==> Envited(url) && |Segments(url)| == 0
    ensures Envited(url) && r.Some? ==> r == Some(ShaclFileUrl(Segments(url)[0]))
    ensures !Envited(url) ==> r == Some(Replace(url, "#", ".ttl"))
  {
    if Envited(url) then
      var segments := Segments(url);
      if |segments| > 0 then Some(ShaclFileUrl(segments[0])) else None
    else Some(Replace(url, "#", ".ttl"))
  }

  /** The first segment is the first non-empty piece of the path, and holds
      no `/`. */
  lemma {:induction false} FirstSegment(pieces: seq<string>)
    requires |NonEmpty(pieces)| > 0
    ensures exists k :: 0 <= k < |pieces| && pieces[k] == NonEmpty(pieces)[0] && forall j :: 0 <= j < k ==> pieces[j] == ""
  {
    if pieces[0] == "" {
      assert NonEmpty(pieces) == NonEmpty(pieces[1..]);
      FirstSegment(pieces[1..]);
      var k :| 0 <= k < |pieces[1..]| && pieces[1..][k] == NonEmpty(pieces[1..])[0] && forall j :: 0 <= j < k ==> pieces[1..][j] == "";
      assert pieces[k + 1] == NonEmpty(pieces)[0];
      assert forall j :: 0 <= j < k + 1 ==> pieces[j] == "" by {
        forall j | 0 <= j < k + 1
          ensures pieces[j] == ""
        {
          if j > 0 {
            assert pieces[j] == pieces[1..][j - 1];
          }
        }
      }
    } else {
      assert pieces[0] == NonEmpty(pieces)[0];
    }
  }

  /** A path has no segment exactly when every piece of it is empty. */
  lemma {:induction false} NoSegments(pieces: seq<string>)
    ensures |NonEmpty(pieces)| == 0 <==> forall j :: 0 <= j < |pieces| ==> pieces[j] == ""
  {
    if |pieces| > 0 {
      NoSegments(pieces[1..]);
      assert forall j :: 1 <= j < |pieces| ==> pieces[j] == pieces[1..][j - 1];
    }
  }

  /** The ontology name is recovered from the download URL: after the
      server and `/main/` come the name and the name's SHACL file. */
  lemma ShaclFileUrlParts(name: string)
    requires name != "" && '/' !in name
    ensures var u := ShaclFileUrl(name);
            var head := GaiaxServer + "/main/";
            StartsWith(u, head) && Split(u[|head|..], "/") == [name, name + "_shacl.ttl"]
  {
    var head := GaiaxServer + "/main/";
    var u := ShaclFileUrl(name);
    assert u == head + (name + "/" + (name + "_shacl.ttl"));
    assert u[|head|..] == Join("/", [name, name + "_shacl.ttl"]);
    assert '/' !in "_shacl.ttl";
    assert '/' !in name + "_shacl.ttl";
    SplitJoin([name, name + "_shacl.ttl"], '/');
  }

  /** For an ENVITED-X URL with a path segment, the download URL names the
      first non-empty piece of the path, which holds no `/`. */
  lemma EnvitedDownload(url: string)
    requires Envited(url) && GetUrlForDownload(url).Some?
    ensures var pieces := PathPieces(url);
            exists k :: 0 <= k < |pieces| && pieces[k] != "" && '/' !in pieces[k]
                        && GetUrlForDownload(url) == Some(ShaclFileUrl(pieces[k]))
                        && forall j :: 0 <= j < k ==> pieces[j] == ""
  {
    var pieces := PathPieces(url);
    FirstSegment(pieces);
    EnvitedHttps(url);
    SplitPieces(HttpsPath(url), '/');
  }

  /** A redirected URL has no `#` left, and one without `#` is kept. */
  lemma OtherDownload(url: string)
    requires !Envited(url)
    ensures '#' !in GetUrlForDownload(url).value
    ensures '#' !in url ==> GetUrlForDownload(url) == Some(url)
  {
    ReplaceRemoves(url, '#', ".ttl");
    if '#' !in url {
      ReplaceNoChar(url, '#', ".ttl");
    }
  }

  /** A character with no meaning to the URL parser: not a delimiter of the
      network location, the query, the fragment or the parameters, and not
      removed. */
  predicate Plain(c: char)
  {
    c != '/' && c != '?' && c != '#' && c != ';' && !Unsafe(c)
  }

  predicate PlainText(s: string)
  {
    forall i :: 0 <= i < |s| ==> Plain(s[i])
  }

  lemma PlainHost()
    ensures PlainText(EnvitedHost)
  {
  }

  /** The text before a character that does not occur is all of it. */
  lemma BeforeAbsent(s: string, c: char)
    requires c !in s
    ensures Before(s, c) == s
  {
    ContainsCharIff(s, c);
  }

  /** A path without `;` has no parameters. */
  lemma NoParams(t: string)
    requires ';' !in t
    ensures StripParams(t) == t
  {
    ContainsCharIff(t, ';');
    match LastIndexOfChar(t, '/')
    case Some(k) =>
      assert forall c :: c in t[k..] ==> c in t;
      ContainsCharIff(t[k..], ';');
    case None =>
  }

  /** A text made of `/` and plain characters holds no other character. */
  lemma SlashedLacks(t: string, c: char)
    requires forall i :: 0 <= i < |t| ==> t[i] == '/' || Plain(t[i])
    requires c != '/' && !Plain(c)
    ensures c !in t
  {
    assert forall i :: 0 <= i < |t| ==> t[i] != c;
  }

  /** A text made of `/` and plain characters is kept by the parser's
      clean-up and has no query, fragment or parameters. */
  lemma SlashedPath(t: string)
    requires forall i :: 0 <= i < |t| ==> t[i] == '/' || Plain(t[i])
    ensures RemoveUnsafe(t) == t && Before(Before(t, '#'), '?') == t && StripParams(t) == t
  {
    RemoveUnsafeKeeps(t);
    SlashedLacks(t, '#');
    SlashedLacks(t, '?');
    SlashedLacks(t, ';');
    BeforeAbsent(t, '#');
    BeforeAbsent(t, '?');
    NoParams(t);
  }

  /** The path of an ENVITED-X URL is everything after the host, when that is
      made of `/` and plain characters. */
  lemma {:induction false} EnvitedPath(t: string)
    requires |t| == 0 || t[0] == '/'
    requires forall i :: 0 <= i < |t| ==> t[i] == '/' || Plain(t[i])
    ensures Envited(EnvitedUrl + t) && HttpsPath(EnvitedUrl + t) == t
  {
    PlainHost();
    var u := EnvitedUrl + t;
    assert u[..|EnvitedUrl|] == EnvitedUrl;
    EnvitedHttps(u);
    var rest := EnvitedHost + t;
    assert u[8..] == rest;
    RemoveUnsafeKeeps(rest) by {
      forall i | 0 <= i < |rest|
        ensures !Unsafe(rest[i])
      {
        if i >= |EnvitedHost| {
          assert rest[i] == t[i - |EnvitedHost|];
        }
      }
    }
    NetlocStops(EnvitedHost, t);
    SlashedPath(t);
  }

  /** The non-empty pieces of non-empty pieces are all of them. */
  lemma {:induction false} NonEmptyAll(pieces: seq<string>)
    requires forall i :: 0 <= i < |pieces| ==> pieces[i] != ""
    ensures NonEmpty(pieces) == pieces
  {
    if |pieces| > 0 {
      NonEmptyAll(pieces[1..]);
    }
  }

  /** The characters of a join are the separator and those of the parts. */
  lemma {:induction false} JoinChars(parts: seq<string>)
    requires forall i :: 0 <= i < |parts| ==> PlainText(parts[i])
    ensures forall i :: 0 <= i < |Join("/", parts)| ==> Join("/", parts)[i] == '/' || Plain(Join("/", parts)[i])
  {
    if |parts| > 1 {
      JoinChars(parts[1..]);
      var rest := Join("/", parts[1..]);
      var j := Join("/", parts);
      assert j == parts[0] + "/" + rest;
      assert PlainText(parts[0]);
      forall i | 0 <= i < |j|
        ensures j[i] == '/' || Plain(j[i])
      {
        if i < |parts[0]| {
          assert j[i] == parts[0][i];
          assert Plain(parts[0][i]);
        } else if i > |parts[0]| {
          var k := i - |parts[0]| - 1;
          assert j[i] == rest[k];
          assert rest[k] == '/' || Plain(rest[k]);
        } else {
          assert j[i] == '/';
        }
      }
    } else if |parts| == 1 {
      assert PlainText(parts[0]);
    }
  }

  /** A `/` followed by the join of plain segments is the join with an
      empty first piece, and splits back into those pieces. */
  lemma SlashJoin(segments: seq<string>)
    requires |segments| > 0
    requires forall i :: 0 <= i < |segments| ==> segments[i] != "" && PlainText(segments[i])
    ensures var t := "/" + Join("/", segments);
            (forall i :: 0 <= i < |t| ==> t[i] == '/' || Plain(t[i]))
            && Split(t, "/") == [""] + segments
  {
    var pieces := [""] + segments;
    var t := "/" + Join("/", segments);
    assert pieces[1..] == segments;
    assert t == Join("/", pieces);
    JoinChars(segments);
    forall i | 0 <= i < |t|
      ensures t[i] == '/' || Plain(t[i])
    {
      if i > 0 {
        assert t[i] == Join("/", segments)[i - 1];
      }
    }
    forall i | 0 <= i < |pieces|
      ensures '/' !in pieces[i]
    {
      if i > 0 {
        assert pieces[i] == segments[i - 1];
        assert forall k :: 0 <= k < |pieces[i]| ==> pieces[i][k] != '/';
      }
    }
    SplitJoin(pieces, '/');
  }

  /** Round trip: an ENVITED-X URL built from plain path segments is
      redirected to the SHACL file of its first segment. */
  lemma EnvitedRoundTrip(segments: seq<string>)
    requires |segments| > 0
    requires forall i :: 0 <= i < |segments| ==> segments[i] != "" && PlainText(segments[i])
    ensures var url := EnvitedUrl + ("/" + Join("/", segments));
            Envited(url) && Segments(url) == segments
            && GetUrlForDownload(url) == Some(ShaclFileUrl(segments[0]))
  {
    var t := "/" + Join("/", segments);
    SlashJoin(segments);
    EnvitedPath(t);
    SegmentsOf(t, segments);
  }

  /** The segments of a path that splits into an empty piece followed by
      non-empty ones are those. */
  lemma SegmentsOf(t: string, segments: seq<string>)
    requires Envited(EnvitedUrl + t) && HttpsPath(EnvitedUrl + t) == t
    requires Split(t, "/") == [""] + segments
    requires forall i :: 0 <= i < |segments| ==> segments[i] != ""
    ensures Segments(EnvitedUrl + t) == segments
  {
    assert NonEmpty([""] + segments) == NonEmpty(segments) by {
      assert ([""] + segments)[1..] == segments;
    }
    NonEmptyAll(segments);
  }

  /** A text of slashes only splits into empty pieces. */
  lemma {:induction false} SlashesSplit(t: string)
    requires forall i :: 0 <= i < |t| ==> t[i] == '/'
    ensures forall i :: 0 <= i < |Split(t, "/")| ==> Split(t, "/")[i] == ""
    decreases |t|
  {
    if |t| > 0 {
      assert OccursAt(t, "/", 0);
      SlashesSplit(t[1..]);
    } else {
      assert Split(t, "/") == [""];
    }
  }

  /** The host followed by nothing or by slashes only has no path segment,
      and so no SHACL file. */
  lemma HostOnly(t: string)
    requires forall i :: 0 <= i < |t| ==> t[i] == '/'
    ensures GetUrlForDownload(EnvitedUrl + t) == None
  {
    EnvitedPath(t);
    SlashesSplit(t);
    NoSegments(PathPieces(EnvitedUrl + t));
  }

  /** The network location runs up to the first `/`, `?` or `#`. */
  lemma {:induction false} NetlocStops(host: string, t: string)
    requires forall i :: 0 <= i < |host| ==> host[i] != '/' && host[i] != '?' && host[i] != '#'
    requires |t| == 0 || t[0] == '/' || t[0] == '?' || t[0] == '#'
    ensures NetlocEnd(host + t) == |host| && (host + t)[|host|..] == t
  {
    if |host| > 0 {
      assert (host + t)[1..] == host[1..] + t;
      NetlocStops(host[1..], t);
    } else {
      assert host + t == t;
    }
  }

  // ----------------------------------------------------------- local copy

  /** The file name `download_shacle` uses for an ontology's SHACL file. */
  function ShaclFileName(shacleName: string): string
  {
    shacleName + "_shacl.ttl"
  }

  /** The URL `download_shacle` fetches: the file name is appended only to
      an ENVITED-X URL; any other URL is used as it is. */
  function ShaclUrl(urlPath: string, shacleName: string): (r: string)
    ensures Envited(urlPath) ==> StartsWith(r, urlPath) && EndsWith(r, ShaclFileName(shacleName))
    ensures !Envited(urlPath) ==> r == urlPath
    ensures Envited(r) <==> Envited(urlPath)
  {
    if Envited(urlPath) then
      var r := urlPath + ShaclFileName(shacleName);
      assert r[..|urlPath|] == urlPath;
      assert r[..|EnvitedUrl|] == urlPath[..|EnvitedUrl|];
      r
    else urlPath
  }

  /** `Path(f'{g_shacle_folder}/{filename}')` as text. */
  function LocalShaclPath(shacleName: string): string
  {
    PathStr(ShacleFolder + "/" + ShaclFileName(shacleName))
  }

  /** The local copy lies directly in the SHACL folder, under the SHACL
      file name of the ontology, when that name is a plain component. */
  lemma LocalShaclPathParts(shacleName: string)
    requires '/' !in shacleName
    ensures Root(LocalShaclPath(shacleName)) == ""
    ensures Parts(LocalShaclPath(shacleName)) == [ShacleFolder, ShaclFileName(shacleName)]
    ensures Name(LocalShaclPath(shacleName)) == ShaclFileName(shacleName)
  {
    var f := ShaclFileName(shacleName);
    assert '/' !in "_shacl.ttl";
    assert f != "" && f != "." by { assert f[|f| - 1] == 'l'; }
    var ps := [ShacleFolder, f];
    assert ShacleFolder + "/" + f == "" + Join("/", ps);
    PathStrJoin("", ps);
    PartsOfJoin("", ps);
  }

  /** What `download_shacle` does: nothing when the local copy exists;
      otherwise it fetches the file from `ShaclUrl`. */
  datatype Download = Download(localPath: string, fetched: Option<string>)

  /** `download_shacle`. Whether the local copy exists and whether the
      response to a URL is truthy are parameters; a falsy response ends the
      program. */
  function DownloadShacle(urlPath: string, shacleName: string, localExists: bool, responseOk: string -> bool): (r: Result<Download>)
    ensures r.Err? <==> !localExists && !responseOk(ShaclUrl(urlPath, shacleName))
    ensures r.Err? ==> r.error.Exit?
    ensures r.Ok? ==> r.value.localPath == LocalShaclPath(shacleName)
    ensures r.Ok? ==> (r.value.fetched.None? <==> localExists)
    ensures r.Ok? && r.value.fetched.Some? ==> r.value.fetched.value == ShaclUrl(urlPath, shacleName)
  {
    var local := LocalShaclPath(shacleName);
    if localExists then Ok(Download(local, None))
    else
      var url := ShaclUrl(urlPath, shacleName);
      if !responseOk(url) then Err(Exit("No shacl files found in url"))
      else Ok(Download(local, Some(url)))
  }

  // --------------------------------------------------------------- prefixes

  /** `get_prefixes`: the namespaces of a graph, as prefix and namespace
      pairs in the graph's order, that are ENVITED-X URLs. */
  function GetPrefixes(namespaces: seq<(string, string)>): Dict<string>
  {
    if |namespaces| == 0 then []
    else
      var (prefix, namespace) := namespaces[|namespaces| - 1];
      var d := GetPrefixes(namespaces[..|namespaces| - 1]);
      if Envited(namespace) then Put(d, prefix, namespace) else d
  }

  /** A prefix is kept exactly when it is bound to an ENVITED-X namespace,
      and it keeps the last such namespace. */
  lemma GetPrefixesGet(namespaces: seq<(string, string)>, prefix: string)
    ensures var r := Get(GetPrefixes(namespaces), prefix);
            (r.Some? <==> exists i :: 0 <= i < |namespaces| && namespaces[i].0 == prefix && Envited(namespaces[i].1))
            && (r.Some? ==> Envited(r.value)
                            && exists i :: 0 <= i < |namespaces| && namespaces[i] == (prefix, r.value)
                                           && forall j :: i < j < |namespaces| && namespaces[j].0 == prefix ==> !Envited(namespaces[j].1))
  {
    GetPrefixesKept(namespaces, prefix);
  }

  /** `r` is what `prefix` should map to after reading `namespaces`: present
      exactly when some binding of it is an ENVITED-X URL, and then the last
      such binding. */
  ghost predicate KeptAs(namespaces: seq<(string, string)>, prefix: string, r: Option<string>)
  {
    (r.Some? <==> exists i :: 0 <= i < |namespaces| && namespaces[i].0 == prefix && Envited(namespaces[i].1))
    && (r.Some? ==> Envited(r.value)
                    && exists i :: 0 <= i < |namespaces| && namespaces[i] == (prefix, r.value)
                                   && forall j :: i < j < |namespaces| && namespaces[j].0 == prefix ==> !Envited(namespaces[j].1))
  }

  lemma {:induction false} GetPrefixesKept(namespaces: seq<(string, string)>, prefix: string)
    ensures KeptAs(namespaces, prefix, Get(GetPrefixes(namespaces), prefix))
  {
    if |namespaces| > 0 {
      var n := |namespaces| - 1;
      var pre := namespaces[..n];
      var last := namespaces[n];
      assert namespaces == pre + [last];
      GetPrefixesKept(pre, prefix);
      if last.0 == prefix && Envited(last.1) {
        assert Get(GetPrefixes(namespaces), prefix) == Some(last.1);
        KeptAsSnocMatch(pre, last, prefix);
      } else {
        assert Get(GetPrefixes(namespaces), prefix) == Get(GetPrefixes(pre), prefix);
        KeptAsSnocOther(pre, last, prefix, Get(GetPrefixes(pre), prefix));
      }
    }
  }

  lemma KeptAsSnocMatch(pre: seq<(string, string)>, last: (string, string), prefix: string)
    requires last.0 == prefix && Envited(last.1)
    ensures KeptAs(pre + [last], prefix, Some(last.1))
  {
    var ns := pre + [last];
    assert ns[|pre|] == (prefix, last.1);
  }

  lemma KeptAsSnocOther(pre: seq<(string, string)>, last: (string, string), prefix: string, r: Option<string>)
    requires KeptAs(pre, prefix, r) && !(last.0 == prefix && Envited(last.1))
    ensures KeptAs(pre + [last], prefix, r)
  {
    var ns := pre + [last];
    if exists i :: 0 <= i < |ns| && ns[i].0 == prefix && Envited(ns[i].1) {
      var i :| 0 <= i < |ns| && ns[i].0 == prefix && Envited(ns[i].1);
      assert i < |pre| && pre[i] == ns[i];
    }
    if r.Some? {
      var i :| 0 <= i < |pre| && pre[i] == (prefix, r.value)
               && forall j :: i < j < |pre| && pre[j].0 == prefix ==> !Envited(pre[j].1);
      assert ns[i] == pre[i];
      forall j | i < j < |ns| && ns[j].0 == prefix
        ensures !Envited(ns[j].1)
      {
        if j < |pre| {
          assert ns[j] == pre[j];
        }
      }
    }
  }

  /** Every prefix occurs once. */
  lemma {:induction false} GetPrefixesUnique(namespaces: seq<(string, string)>)
    ensures UniqueKeys(GetPrefixes(namespaces))
  {
    if |namespaces| > 0 {
      var n := |namespaces| - 1;
      GetPrefixesUnique(namespaces[..n]);
      PutUnique(GetPrefixes(namespaces[..n]), namespaces[n].0, namespaces[n].1);
    }
  }
}
