/**
 * The modular dashboard server's HTTP side: the content type of a static
 * file, the routing of a request path, the sanitising of a static path, and
 * the reading of a request (request line and headers) and writing of a
 * response (status line and headers) on a connection.
 *
 * Bodies are texts: a file's bytes are one character each, and the JSON
 * bodies are ASCII.  The file system (existence, `resolve`, reading) and the
 * status gatherer's answers are parameters.
 */
module Http {
  import opened Wrappers
  import opened Seqs
  import opened Text
  import opened Json

  // ---------------------------------------------------------------------
  // Dicts of strings

  /** A dict from strings to strings, in insertion order. */
  type Dict = seq<(string, string)>

  /** `d.get(key)`. */
  function Lookup(d: Dict, key: string): (r: Option<string>)
    ensures r.None? <==> forall i :: 0 <= i < |d| ==> d[i].0 != key
    ensures r.Some? ==> (key, r.value) in d
  {
    if d == [] then None
    else if d[0].0 == key then Some(d[0].1)
    else
      assert forall i :: 1 <= i < |d| ==> d[i] == d[1..][i - 1];
      Lookup(d[1..], key)
  }

  /** No key appears twice. */
  predicate KeysUnique(d: Dict)
  {
    d == [] || (Lookup(d[1..], d[0].0).None? && KeysUnique(d[1..]))
  }

  /** `d[key] = value`: an existing key keeps its place, a new one goes last. */
  function Assign(d: Dict, key: string, value: string): Dict
  {
    if d == [] then [(key, value)]
    else if d[0].0 == key then [(key, value)] + d[1..]
    else [d[0]] + Assign(d[1..], key, value)
  }

  /** After an assignment the key holds the value, and every other key holds what it held. */
  lemma {:induction false} AssignLookup(d: Dict, key: string, value: string, k: string)
    ensures Lookup(Assign(d, key, value), k) == if k == key then Some(value) else Lookup(d, k)
  {
    var r := Assign(d, key, value);
    if d != [] {
      assert r[1..] == if d[0].0 == key then d[1..] else Assign(d[1..], key, value);
      if d[0].0 != key {
        AssignLookup(d[1..], key, value, k);
      }
    }
  }

  /** Assigning keeps the keys unique. */
  lemma {:induction false} AssignUnique(d: Dict, key: string, value: string)
    requires KeysUnique(d)
    ensures KeysUnique(Assign(d, key, value))
  {
    var r := Assign(d, key, value);
    if d != [] {
      assert r[1..] == if d[0].0 == key then d[1..] else Assign(d[1..], key, value);
      if d[0].0 != key {
        AssignUnique(d[1..], key, value);
        AssignLookup(d[1..], key, value, d[0].0);
      }
    }
  }

  // ---------------------------------------------------------------------
  // Content types

  /** The table of content types by extension. */
  function KnownType(ext: string): Option<string>
  {
    if ext == ".html" then Some("text/html; charset=utf-8")
    else if ext == ".css" then Some("text/css; charset=utf-8")
    else if ext == ".js" then Some("application/javascript; charset=utf-8")
    else if ext == ".json" then Some("application/json; charset=utf-8")
    else if ext == ".png" then Some("image/png")
    else if ext == ".jpg" || ext == ".jpeg" then Some("image/jpeg")
    else if ext == ".gif" then Some("image/gif")
    else if ext == ".svg" then Some("image/svg+xml")
    else if ext == ".ico" then Some("image/x-icon")
    else if ext == ".woff" then Some("font/woff")
    else if ext == ".woff2" then Some("font/woff2")
    else if ext == ".ttf" then Some("font/ttf")
    else None
  }

  const OctetStream := "application/octet-stream"

  /** `s.rfind(c)`, -1 when absent. */
  function RFind(s: string, c: char): (r: int)
    ensures -1 <= r < |s|
    ensures r >= 0 ==> s[r] == c
    ensures forall j :: r < j < |s| ==> s[j] != c
  {
    if s == [] then -1 else if s[|s| - 1] == c then |s| - 1 else RFind(s[..|s| - 1], c)
  }

  /** Every character is a dot. */
  predicate AllDots(s: string)
  {
    s == [] || (s[0] == '.' && AllDots(s[1..]))
  }

  /**
   * `os.path.splitext(path)[1]`: from the last dot of the last path
   * component on, unless that component is only dots up to it (so ".bashrc"
   * has no extension).
   */
  function Extension(path: string): string
  {
    var sep := RFind(path, '/');
    var dot := RFind(path, '.');
    if dot > sep && !AllDots(path[sep + 1..dot]) then
      path[dot..]
    else ""
  }

  /** An extension is empty or a dot and a suffix of the path without further dots or slashes. */
  lemma ExtensionShape(path: string)
    ensures var ext := Extension(path);
      && (ext == "" || (ext[0] == '.' && EndsWith(path, ext)))
      && forall j :: 0 < j < |ext| ==> ext[j] != '.' && ext[j] != '/'
  {
    var sep := RFind(path, '/');
    var dot := RFind(path, '.');
    if dot > sep && !AllDots(path[sep + 1..dot]) {
      var ext := path[dot..];
      assert Extension(path) == ext;
      forall j | 0 < j < |ext| ensures ext[j] != '.' && ext[j] != '/' {
        assert ext[j] == path[dot + j];
      }
    }
  }

  /** `get_content_type`: the type of the lower-cased extension, or the octet-stream default. */
  function ContentType(path: string): string
  {
    KnownType(Lower(Extension(path))).GetOr(OctetStream)
  }

  /** The default type is given exactly to the extensions the table does not know. */
  lemma DefaultType(path: string)
    ensures ContentType(path) == OctetStream <==> KnownType(Lower(Extension(path))).None?
  {
  }

  lemma LowerCharIdempotent(c: char)
    ensures LowerChar(LowerChar(c)) == LowerChar(c)
  {
  }

  lemma LowerIdempotent(s: string)
    ensures Lower(Lower(s)) == Lower(s)
  {
    forall i | 0 <= i < |s| ensures Lower(Lower(s))[i] == Lower(s)[i] {
      LowerCharIdempotent(s[i]);
    }
  }

  /** Folding case moves no dot and no slash. */
  lemma RFindLower(s: string, c: char)
    requires c == '.' || c == '/'
    ensures RFind(Lower(s), c) == RFind(s, c)
  {
    assert forall j :: 0 <= j < |s| ==> (Lower(s)[j] == c <==> s[j] == c);
  }

  lemma LowerSlice(s: string, i: nat, j: nat)
    requires i <= j <= |s|
    ensures Lower(s)[i..j] == Lower(s[i..j])
  {
  }

  lemma {:induction false} AllDotsLower(s: string)
    ensures AllDots(Lower(s)) <==> AllDots(s)
  {
    if s != [] {
      assert Lower(s)[1..] == Lower(s[1..]);
      AllDotsLower(s[1..]);
    }
  }

  lemma ExtensionOfLower(path: string)
    ensures Extension(Lower(path)) == Lower(Extension(path))
  {
    RFindLower(path, '/');
    RFindLower(path, '.');
    var sep := RFind(path, '/');
    var dot := RFind(path, '.');
    if dot > sep {
      LowerSlice(path, sep + 1, dot);
      AllDotsLower(path[sep + 1..dot]);
      LowerSlice(path, dot, |path|);
      assert path[dot..] == path[dot..|path|];
      assert Lower(path)[dot..] == Lower(path)[dot..|path|];
    }
  }

  /** The extension lookup ignores case: a path and its lower-cased form have the same type. */
  lemma ContentTypeIgnoresCase(path: string)
    ensures ContentType(Lower(path)) == ContentType(path)
  {
    ExtensionOfLower(path);
    LowerIdempotent(Extension(path));
  }

  lemma RFindAt(s: string, c: char, i: nat)
    requires i < |s| && s[i] == c
    requires forall j :: i < j < |s| ==> s[j] != c
    ensures RFind(s, c) == i
  {
  }

  /** A name with a stem and an extension has that extension, whatever folder holds it. */
  lemma NamedExtension(dir: string, stem: string, ext: string)
    requires stem != [] && stem[0] != '.'
    requires forall j :: 0 <= j < |stem| ==> stem[j] != '/' && stem[j] != '.'
    requires forall j :: 0 <= j < |ext| ==> ext[j] != '/' && ext[j] != '.'
    ensures Extension(dir + "/" + stem + "." + ext) == "." + ext
    ensures ContentType(dir + "/" + stem + "." + ext) == KnownType(Lower("." + ext)).GetOr(OctetStream)
  {
    var path := dir + "/" + stem + "." + ext;
    var dot := |dir| + 1 + |stem|;
    assert forall j :: |dir| < j < |path| ==> path[j] != '/' by {
      forall j | |dir| < j < |path| ensures path[j] != '/' {
        if j < dot { assert path[j] == stem[j - |dir| - 1]; }
        else if j > dot { assert path[j] == ext[j - dot - 1]; }
      }
    }
    RFindAt(path, '/', |dir|);
    assert forall j :: dot < j < |path| ==> path[j] != '.' by {
      forall j | dot < j < |path| ensures path[j] != '.' {
        assert path[j] == ext[j - dot - 1];
      }
    }
    RFindAt(path, '.', dot);
    assert path[|dir| + 1..dot] == stem;
    assert !AllDots(stem);
    assert path[dot..] == "." + ext;
  }

  /** A name that is a dot and an extension, such as ".png", has no extension and no known type. */
  lemma DotfileHasNoType(dir: string, ext: string)
    requires forall j :: 0 <= j < |ext| ==> ext[j] != '/' && ext[j] != '.'
    ensures Extension(dir + "/." + ext) == ""
    ensures ContentType(dir + "/." + ext) == OctetStream
  {
    var path := dir + "/." + ext;
    assert forall j :: |dir| < j < |path| ==> path[j] != '/' by {
      forall j | |dir| < j < |path| ensures path[j] != '/' {
        if j > |dir| + 1 { assert path[j] == ext[j - |dir| - 2]; }
      }
    }
    RFindAt(path, '/', |dir|);
    assert forall j :: |dir| + 1 < j < |path| ==> path[j] != '.' by {
      forall j | |dir| + 1 < j < |path| ensures path[j] != '.' {
        assert path[j] == ext[j - |dir| - 2];
      }
    }
    RFindAt(path, '.', |dir| + 1);
    assert AllDots(path[|dir| + 1..|dir| + 1]);
    assert KnownType("").None?;
  }

  // ---------------------------------------------------------------------
  // Routing

  datatype Route = Index | Health | ApiStatus | ApiAgent(id: string) | ApiEvents | Static(path: string) | Missing

  const AgentPrefix := "/api/agent/"

  /** Removing trailing characters keeps a text free of a pattern. */
  lemma PrefixFree(s: string, n: nat, p: string)
    requires n <= |s| && !Contains(s, p)
    ensures !Contains(s[..n], p)
  {
    forall j | 0 <= j <= n ensures !Occurs(s[..n], p, j) {
      if Occurs(s[..n], p, j) {
        assert s[..n][j..j + |p|] == s[j..j + |p|];
        assert Occurs(s, p, j);
      }
    }
  }

  /** `path.split('/api/agent/')[-1].rstrip('/')`. */
  function AgentId(path: string): (id: string)
    ensures !Contains(id, AgentPrefix)
    ensures id == [] || id[|id| - 1] != '/'
  {
    var pieces := Split(path, AgentPrefix);
    SplitPiecesFree(path, AgentPrefix);
    var last := pieces[|pieces| - 1];
    var id := RStripChar(last, '/');
    PrefixFree(last, |id|, AgentPrefix);
    id
  }

  lemma FixedRoutesAreNotAgents()
    ensures !StartsWith("/", AgentPrefix) && !StartsWith("/health", AgentPrefix)
    ensures !StartsWith("/index.html", AgentPrefix) && !StartsWith("/api/status", AgentPrefix)
    ensures !StartsWith("/api/events", AgentPrefix)
  {
    assert "/index.html"[1] != AgentPrefix[1];
    assert "/api/status"[5] != AgentPrefix[5];
    assert "/api/events"[5] != AgentPrefix[5];
  }

  /** `handle_request`'s choice of handler. */
  function RouteOf(path: string): (r: Route)
    ensures r.Missing? <==> !StartsWith(path, "/")
    ensures r.ApiAgent? <==> StartsWith(path, AgentPrefix)
    ensures r.Static? ==> r.path == path && path !in {"/", "/index.html", "/health", "/api/status", "/api/events"}
  {
    FixedRoutesAreNotAgents();
    if path == "/" || path == "/index.html" then Index
    else if path == "/health" then Health
    else if path == "/api/status" then ApiStatus
    else if StartsWith(path, AgentPrefix) then ApiAgent(AgentId(path))
    else if path == "/api/events" then ApiEvents
    else if StartsWith(path, "/") then Static(path)
    else Missing
  }

  /** An id without the prefix and without a trailing slash is routed back to itself. */
  lemma AgentRoundTrip(id: string)
    requires !Contains(id, AgentPrefix)
    requires id == [] || id[|id| - 1] != '/'
    ensures RouteOf(AgentPrefix + id) == ApiAgent(id)
  {
    var path := AgentPrefix + id;
    assert StartsWith(path, AgentPrefix);
    assert Occurs(path, AgentPrefix, 0);
    IndexOfFirst(path, AgentPrefix, 0);
    assert path[|AgentPrefix|..] == id;
    IndexOfContains(id, AgentPrefix);
    assert Split(path, AgentPrefix) == [""] + [id];
  }

  // ---------------------------------------------------------------------
  // Static files

  /** `path.lstrip('/').replace('..', '')`. */
  function Sanitise(path: string): (safe: string)
    ensures !Contains(safe, "..")
  {
    var stripped := LStripChar(path, '/');
    ReplaceLeavesNoDots(stripped);
    Replace(stripped, "..", "")
  }

  /** Two texts free of ".." stay free of it when joined, unless a dot meets a dot. */
  lemma ConcatFree(a: string, b: string)
    requires !Contains(a, "..") && !Contains(b, "..")
    requires a == [] || a[|a| - 1] != '.'
    ensures !Contains(a + b, "..")
  {
    var s := a + b;
    forall j | 0 <= j <= |s| ensures !Occurs(s, "..", j) {
      if j + 2 <= |a| {
        if Occurs(s, "..", j) {
          assert a[j..j + 2] == s[j..j + 2];
          assert Occurs(a, "..", j);
        }
      } else if j >= |a| {
        if Occurs(s, "..", j) {
          assert b[j - |a|..j - |a| + 2] == s[j..j + 2];
          assert Occurs(b, "..", j - |a|);
        }
      } else if j + 2 <= |s| {
        assert s[j] == a[|a| - 1];
        assert s[j..j + 2][0] == s[j];
      }
    }
  }

  /**
   * Deleting every ".." from left to right leaves no "..": the text before
   * the first one cannot end with a dot, or the first one would start there.
   */
  lemma {:induction false} ReplaceLeavesNoDots(s: string)
    ensures !Contains(Replace(s, "..", ""), "..")
    decreases |s|
  {
    match IndexOf(s, "..")
    case None =>
      assert Split(s, "..") == [s];
    case Some(i) =>
      var head := s[..i];
      var rest := s[i + 2..];
      ReplaceLeavesNoDots(rest);
      var pieces := Split(s, "..");
      assert pieces == [head] + Split(rest, "..");
      assert pieces[1..] == Split(rest, "..");
      assert Replace(s, "..", "") == head + "" + Replace(rest, "..", "");
      assert forall j :: 0 <= j < i ==> !Occurs(s, "..", j);
      forall j | 0 <= j <= |head| ensures !Occurs(head, "..", j) {
        if Occurs(head, "..", j) {
          assert j < i;
          assert head[j..j + 2] == s[j..j + 2];
          assert Occurs(s, "..", j);
        }
      }
      if i > 0 && s[i - 1] == '.' {
        assert s[i] == s[i..i + 2][0];
        assert s[i - 1..i + 1] == [s[i - 1], s[i]];
        assert Occurs(s, "..", i - 1);
      }
      ConcatFree(head, Replace(rest, "..", ""));
      assert head + "" + Replace(rest, "..", "") == head + Replace(rest, "..", "");
  }

  /** `Path(dir) / name`: an absolute name replaces the folder. */
  function Joined(dir: string, name: string): string
  {
    if StartsWith(name, "/") then name
    else if name == "" then dir
    else if EndsWith(dir, "/") then dir + name
    else dir + "/" + name
  }

  /**
   * Sanitising alone does not keep a path inside the folder: "/.." followed
   * by an absolute path comes out as that absolute path, which replaces the
   * folder when joined.
   */
  lemma SanitisedCanEscape(dir: string, rest: string)
    requires StartsWith(rest, "/") && !Contains(rest, "..")
    ensures Sanitise("/.." + rest) == rest
    ensures StaticFile(dir, "/.." + rest) == rest
  {
    var path := "/.." + rest;
    var s := ".." + rest;
    assert path[1..] == s;
    assert LStripChar(path, '/') == s;
    assert StartsWith(s, "..");
    assert s[2..] == rest;
    IndexOfContains(rest, "..");
    assert Split(s, "..") == [""] + [rest];
    assert ([""] + [rest])[1..] == [rest];
    assert Join([""] + [rest], "") == rest;
    assert Replace(s, "..", "") == rest;
  }

  /** `PurePath.relative_to` succeeding: the path is the folder or lies below it. */
  predicate Within(p: string, dir: string)
  {
    p == dir || StartsWith(p, if EndsWith(dir, "/") then dir else dir + "/")
  }

  /** The file system as the handler sees it; `read` fails with the exception's text. */
  datatype Files = Files(present: string -> bool, isFile: string -> bool, resolve: string -> string,
                         read: string -> Result<string, string>)

  datatype Response = Response(code: int, headers: Dict, body: string)

  /** `_json_response`: `json.dumps(data, indent=2)` with the JSON headers. */
  function JsonResponse(data: Json, code: int): (r: Response)
    ensures r.code == code && r.body == Pretty(data, 0)
    ensures Lookup(r.headers, "Content-Type") == Some("application/json; charset=utf-8")
    ensures Lookup(r.headers, "Cache-Control") == Some("no-cache")
  {
    Response(code, [("Content-Type", "application/json; charset=utf-8"), ("Cache-Control", "no-cache")],
             Pretty(data, 0))
  }

  function NotFound(message: string): Response
  {
    JsonResponse(JObj([Member("error", JStr(message))]), 404)
  }

  function InternalError(message: string): Response
  {
    JsonResponse(JObj([Member("error", JStr(message))]), 500)
  }

  /** The file a static path names. */
  function StaticFile(dir: string, path: string): string
  {
    Joined(dir, Sanitise(path))
  }

  /**
   * `_serve_static`: a regular file whose resolved path lies inside the
   * resolved folder, with the type of its extension; 404 otherwise, and 500
   * with the error's text when such a file cannot be read.
   */
  function ServeStatic(dir: string, path: string, fs: Files): (r: Response)
    ensures r.code == 200 || r.code == 404 || r.code == 500
    ensures var file := StaticFile(dir, path);
            var servable := fs.present(file) && fs.isFile(file) && Within(fs.resolve(file), fs.resolve(dir));
            && (r.code == 200 <==> servable && fs.read(file).Ok?)
            && (r.code == 200 ==>
                  && fs.read(file) == Ok(r.body)
                  && Lookup(r.headers, "Content-Type") == Some(ContentType(file))
                  && Lookup(r.headers, "Cache-Control") == Some("public, max-age=3600"))
            && (!servable ==> r == NotFound("Not Found"))
            && (servable && fs.read(file).Err? ==> r == InternalError(fs.read(file).error))
  {
    var file := StaticFile(dir, path);
    if !fs.present(file) || !fs.isFile(file) then NotFound("Not Found")
    else if !Within(fs.resolve(file), fs.resolve(dir)) then NotFound("Not Found")
    else match fs.read(file)
      case Err(e) => InternalError(e)
      case Ok(content) =>
        Response(200, [("Content-Type", ContentType(file)), ("Cache-Control", "public, max-age=3600")], content)
  }

  /** `_serve_index`: the folder's index.html, or the placeholder page when there is none. */
  function ServeIndex(dir: string, fs: Files, placeholder: string): (r: Response)
    ensures r.code == 200 || r.code == 500
    ensures r.code == 200 ==> Lookup(r.headers, "Content-Type") == Some("text/html; charset=utf-8")
    ensures var index := Joined(dir, "index.html");
            && (fs.present(index) && fs.read(index).Ok? ==> r.code == 200 && r.body == fs.read(index).value)
            && (fs.present(index) && fs.read(index).Err? ==> r == InternalError(fs.read(index).error))
            && (!fs.present(index) ==> r.code == 200 && r.body == placeholder)
  {
    var index := Joined(dir, "index.html");
    if fs.present(index) then
      match fs.read(index)
      case Err(e) => InternalError(e)
      case Ok(content) => Response(200, [("Content-Type", "text/html; charset=utf-8")], content)
    else Response(200, [("Content-Type", "text/html; charset=utf-8")], placeholder)
  }

  // ---------------------------------------------------------------------
  // The request handler

  /**
   * What the handler's collaborators answer: the health record, the full
   * status, the details of an agent (`None` when unknown) and the recent
   * events, each `Err` with the text of an exception.
   */
  datatype Services = Services(frontendDir: string, files: Files, placeholder: string, health: Json,
                               status: Result<Json, string>, agent: string -> Result<Option<Json>, string>,
                               events: Result<Json, string>)

  /** `handle_request`: the response for a path (the method, headers and body do not matter). */
  function Respond(path: string, s: Services): (r: Response)
    ensures r.code == 200 || r.code == 404 || r.code == 500
    ensures RouteOf(path).Missing? ==> r == NotFound("Not Found")
    ensures RouteOf(path).Static? && r.code == 200 ==>
              Within(s.files.resolve(StaticFile(s.frontendDir, path)), s.files.resolve(s.frontendDir))
    ensures path == "/" || path == "/index.html" ==> r == ServeIndex(s.frontendDir, s.files, s.placeholder)
    ensures path == "/health" ==> r.code == 200 && r.body == Pretty(s.health, 0)
    ensures path == "/api/status" ==>
              && (s.status.Ok? ==> r.code == 200 && r.body == Pretty(s.status.value, 0))
              && (s.status.Err? ==> r == InternalError(s.status.error))
    ensures path == "/api/events" ==>
              && (s.events.Ok? ==> r.code == 200 && r.body == Pretty(JObj([Member("events", s.events.value)]), 0))
              && (s.events.Err? ==> r == InternalError(s.events.error))
    ensures StartsWith(path, AgentPrefix) ==>
              match s.agent(AgentId(path))
              case Err(e) => r == InternalError(e)
              case Ok(None) => r == NotFound("Agent '" + AgentId(path) + "' not found")
              case Ok(Some(v)) => r.code == 200 && r.body == Pretty(v, 0)
    ensures RouteOf(path).Static? ==> r == ServeStatic(s.frontendDir, path, s.files)
  {
    FixedRoutesAreNotAgents();
    match RouteOf(path)
    case Index => ServeIndex(s.frontendDir, s.files, s.placeholder)
    case Health => JsonResponse(s.health, 200)
    case ApiStatus =>
      (match s.status
       case Err(e) => InternalError(e)
       case Ok(v) => JsonResponse(v, 200))
    case ApiAgent(id) =>
      (match s.agent(id)
       case Err(e) => InternalError(e)
       case Ok(None) => NotFound("Agent '" + id + "' not found")
       case Ok(Some(v)) => JsonResponse(v, 200))
    case ApiEvents =>
      (match s.events
       case Err(e) => InternalError(e)
       case Ok(v) => JsonResponse(JObj([Member("events", v)]), 200))
    case Static(p) => ServeStatic(s.frontendDir, p, s.files)
    case Missing => NotFound("Not Found")
  }

  // ---------------------------------------------------------------------
  // Reading a request

  /** The method and the path without its query, or `None` for a line of fewer than two parts. */
  function RequestLine(raw: string): (r: Option<(string, string)>)
    ensures r.None? <==> |Split(Strip(raw), " ")| < 2
    ensures r.Some? ==> !Contains(r.value.1, "?")
  {
    var parts := Split(Strip(raw), " ");
    if |parts| < 2 then None
    else
      var pieces := Split(parts[1], "?");
      SplitPiecesFree(parts[1], "?");
      Some((parts[0], pieces[0]))
  }

  lemma StripUnchanged(s: string)
    requires s != [] && !IsSpace(s[0]) && !IsSpace(s[|s| - 1])
    ensures Strip(s) == s
  {
  }

  /** The text before the first occurrence of a character it does not hold is the first piece. */
  lemma FirstPiece(a: string, c: char, b: string)
    requires forall j :: 0 <= j < |a| ==> a[j] != c
    ensures Split(a + [c] + b, [c])[0] == a
  {
    var s := a + [c] + b;
    assert Occurs(s, [c], |a|) by {
      assert s[|a|..|a| + 1] == [c];
    }
    forall j | 0 <= j < |a| ensures !Occurs(s, [c], j) {
      assert s[j..j + 1] == [a[j]];
    }
    IndexOfFirst(s, [c], |a|);
    assert s[..|a|] == a;
  }

  lemma NoSpaceJoin(path: string, query: string)
    requires NoSpace(path) && NoSpace(query)
    ensures NoSpace(path + "?" + query)
  {
    var t := path + "?" + query;
    forall j | 0 <= j < |t| ensures t[j] != ' ' {
      if j < |path| {
        assert t[j] == path[j];
      } else if j > |path| {
        assert t[j] == query[j - |path| - 1];
      }
    }
  }

  /** A request line of a method, a path with a query and a version gives back the method and the path. */
  lemma RequestLineRoundTrip(verb: string, path: string, query: string, version: string)
    requires verb != [] && version != []
    requires NoSpace(verb) && NoSpace(path) && NoSpace(query) && NoSpace(version)
    requires !IsSpace(verb[0]) && !IsSpace(version[|version| - 1])
    requires forall j :: 0 <= j < |path| ==> path[j] != '?'
    ensures RequestLine(verb + " " + path + "?" + query + " " + version) == Some((verb, path))
  {
    var target := path + "?" + query;
    var line := verb + " " + target + " " + version;
    assert verb + " " + path + "?" + query + " " + version == line;
    assert line[0] == verb[0] && line[|line| - 1] == version[|version| - 1];
    StripUnchanged(line);
    NoSpaceJoin(path, query);
    SplitThree(verb, target, version);
    FirstPiece(path, '?', query);
  }

  /** `not header_line or header_line == b'\r\n'`: the end of the headers, or of the stream. */
  predicate EndOfHeaders(line: string)
  {
    line == "" || line == "\r\n"
  }

  /** How many header lines come before the end of the headers. */
  function Terminator(lines: seq<string>): (n: nat)
    ensures n <= |lines|
    ensures forall j :: 0 <= j < n ==> !EndOfHeaders(lines[j])
    ensures n < |lines| ==> EndOfHeaders(lines[n])
  {
    if lines == [] || EndOfHeaders(lines[0]) then 0
    else
      assert forall j :: 1 <= j < |lines| ==> lines[j] == lines[1..][j - 1];
      1 + Terminator(lines[1..])
  }

  /** One header line: split at the first colon, the key stripped and lower-cased, the value stripped. */
  function HeaderLine(raw: string): (r: Option<(string, string)>)
    ensures r.None? <==> !Contains(Strip(raw), ":")
  {
    var line := Strip(raw);
    IndexOfContains(line, ":");
    match IndexOf(line, ":")
    case None => None
    case Some(i) => Some((Lower(Strip(line[..i])), Strip(line[i + 1..])))
  }

  /** The header dict after some header lines: each line with a colon assigns its key. */
  function Fields(lines: seq<string>): Dict
  {
    Folded(lines, AddField)
  }

  /** Lines read one after the other into a dict that starts empty. */
  function Folded(lines: seq<string>, step: (Dict, string) -> Dict): Dict
  {
    if lines == [] then [] else step(Folded(lines[..|lines| - 1], step), lines[|lines| - 1])
  }

  /** One header line read into the dict. */
  function AddField(d: Dict, raw: string): Dict
  {
    match HeaderLine(raw)
    case None => d
    case Some((k, v)) => Assign(d, k, v)
  }

  /** The value of the last line that names a key: a later line overrides an earlier one. */
  function LastValue(lines: seq<string>, key: string): Option<string>
  {
    if lines == [] then None
    else match HeaderLine(lines[|lines| - 1])
      case Some((k, v)) => if k == key then Some(v) else LastValue(lines[..|lines| - 1], key)
      case None => LastValue(lines[..|lines| - 1], key)
  }

  lemma {:induction false} FieldsLastValue(lines: seq<string>, key: string)
    ensures Lookup(Fields(lines), key) == LastValue(lines, key)
  {
    if lines != [] {
      FieldsLastValue(lines[..|lines| - 1], key);
      var field := HeaderLine(lines[|lines| - 1]);
      if field.Some? {
        AssignLookup(Fields(lines[..|lines| - 1]), field.value.0, field.value.1, key);
      }
    }
  }

  /** The header dict never holds a key twice. */
  lemma {:induction false} FieldsUnique(lines: seq<string>)
    ensures KeysUnique(Fields(lines))
  {
    if lines != [] {
      FieldsUnique(lines[..|lines| - 1]);
      var field := HeaderLine(lines[|lines| - 1]);
      if field.Some? {
        AssignUnique(Fields(lines[..|lines| - 1]), field.value.0, field.value.1);
      }
    }
  }

  /** A header line as the server writes one reads back as its lower-cased key and its value. */
  lemma HeaderLineRoundTrip(key: string, value: string)
    requires key != [] && value != []
    requires forall j :: 0 <= j < |key| ==> key[j] != ':'
    requires !IsSpace(key[0]) && !IsSpace(key[|key| - 1])
    requires !IsSpace(value[0]) && !IsSpace(value[|value| - 1])
    ensures HeaderLine(key + ": " + value) == Some((Lower(key), value))
  {
    var line := key + ": " + value;
    assert LStrip(line) == line;
    assert line[|line| - 1] == value[|value| - 1];
    assert RStrip(line) == line;
    assert Occurs(line, ":", |key|);
    forall j | 0 <= j < |key| ensures !Occurs(line, ":", j) {
      assert line[j] == key[j];
    }
    IndexOfFirst(line, ":", |key|);
    assert line[..|key|] == key;
    assert line[|key| + 1..] == " " + value;
    assert LStrip(" " + value) == LStrip(value);
  }

  /** The header lines read from the front until the end of the headers, into a dict. */
  function ReadFields(lines: seq<string>, d: Dict, step: (Dict, string) -> Dict): Dict
  {
    if lines == [] || EndOfHeaders(lines[0]) then d else ReadFields(lines[1..], step(d, lines[0]), step)
  }

  /** Reading from the front gives the dict of the header lines before the end of the headers. */
  lemma {:induction false} ReadFieldsFold(pre: seq<string>, lines: seq<string>, step: (Dict, string) -> Dict)
    ensures ReadFields(lines, Folded(pre, step), step) == Folded(pre + lines[..Terminator(lines)], step)
    decreases |lines|
  {
    if lines == [] || EndOfHeaders(lines[0]) {
      assert pre + lines[..0] == pre;
    } else {
      var next := pre + [lines[0]];
      assert next[..|next| - 1] == pre;
      ReadFieldsFold(next, lines[1..], step);
      assert pre + lines[..Terminator(lines)] == next + lines[1..][..Terminator(lines[1..])];
    }
  }

  lemma ReadFieldsStep(lines: seq<string>, i: nat, d: Dict, step: (Dict, string) -> Dict)
    requires i < |lines| && !EndOfHeaders(lines[i])
    ensures ReadFields(lines[i..], d, step) == ReadFields(lines[i + 1..], step(d, lines[i]), step)
  {
    assert lines[i..][1..] == lines[i + 1..];
  }

  lemma ReadFieldsDone(lines: seq<string>, i: nat, d: Dict, step: (Dict, string) -> Dict)
    requires i <= |lines| && (i < |lines| ==> EndOfHeaders(lines[i]))
    ensures ReadFields(lines[i..], d, step) == d
  {
  }

  /** The header loop of `handle_client`: header lines up to a blank line or the end of the stream. */
  method ReadHeaders(lines: seq<string>) returns (headers: Dict)
    ensures headers == Fields(lines[..Terminator(lines)])
  {
    headers := ReadUntilBlank(lines, AddField);
    ReadFieldsFold([], lines, AddField);
    assert Folded([], AddField) == [];
    EmptyAppend(lines[..Terminator(lines)]);
  }

  /** The loop that reads lines until the end of the headers, running the body on each. */
  method ReadUntilBlank(lines: seq<string>, step: (Dict, string) -> Dict) returns (d: Dict)
    ensures d == ReadFields(lines, [], step)
  {
    d := [];
    var i := 0;
    while i < |lines| && !EndOfHeaders(lines[i])
      invariant 0 <= i <= |lines|
      invariant ReadFields(lines[i..], d, step) == ReadFields(lines, [], step)
    {
      ReadFieldsStep(lines, i, d, step);
      d := step(d, lines[i]);
      i := i + 1;
    }
    ReadFieldsDone(lines, i, d, step);
  }

  /** `int(headers.get('content-length', 0))`; `None` is the `ValueError` of a malformed number. */
  function ContentLength(headers: Dict): Option<int>
  {
    match Lookup(headers, "content-length")
    case None => Some(0)
    case Some(v) => ParseInt(v)
  }

  // ---------------------------------------------------------------------
  // Writing a response

  /** The reason phrase of a status code. */
  function StatusText(code: int): (t: string)
    ensures t == "Unknown" <==> code != 200 && code != 404 && code != 500
  {
    if code == 200 then "OK" else if code == 404 then "Not Found" else if code == 500 then "Internal Server Error"
    else "Unknown"
  }

  /** The handler's headers with the length of the body, `Connection: close` and the open CORS origin. */
  function Finished(r: Response): Dict
  {
    Assign(Assign(Assign(r.headers, "Content-Length", NatToString(|r.body|)), "Connection", "close"),
           "Access-Control-Allow-Origin", "*")
  }

  /**
   * The finished headers hold the body's length, `close` and `*`, every
   * other header as the handler set it, and no key twice.
   */
  lemma FinishedHeaders(r: Response, k: string)
    requires KeysUnique(r.headers)
    ensures KeysUnique(Finished(r))
    ensures Lookup(Finished(r), k) ==
              if k == "Access-Control-Allow-Origin" then Some("*")
              else if k == "Connection" then Some("close")
              else if k == "Content-Length" then Some(NatToString(|r.body|))
              else Lookup(r.headers, k)
  {
    var one := Assign(r.headers, "Content-Length", NatToString(|r.body|));
    var two := Assign(one, "Connection", "close");
    AssignLookup(r.headers, "Content-Length", NatToString(|r.body|), k);
    AssignLookup(one, "Connection", "close", k);
    AssignLookup(two, "Access-Control-Allow-Origin", "*", k);
    AssignUnique(r.headers, "Content-Length", NatToString(|r.body|));
    AssignUnique(one, "Connection", "close");
    AssignUnique(two, "Access-Control-Allow-Origin", "*");
  }

  function HeaderLines(h: Dict): (lines: seq<string>)
    ensures |lines| == |h|
  {
    if h == [] then [] else [h[0].0 + ": " + h[0].1] + HeaderLines(h[1..])
  }

  function StatusLine(code: int): string
  {
    "HTTP/1.1 " + IntToString(code) + " " + StatusText(code)
  }

  /** The response head: the status line, one line per header, and an empty line, each ended by CRLF. */
  function Head(code: int, h: Dict): string
  {
    Join([StatusLine(code)] + HeaderLines(h) + [""], "\r\n") + "\r\n"
  }

  /** What is written on the connection. */
  function Wire(r: Response): string
  {
    Head(r.code, Finished(r)) + r.body
  }

  lemma {:induction false} JoinSnocEmpty(parts: seq<string>, sep: string)
    requires parts != []
    ensures Join(parts + [""], sep) == Join(parts, sep) + sep
  {
    if |parts| > 1 {
      assert (parts + [""])[1..] == parts[1..] + [""];
      JoinSnocEmpty(parts[1..], sep);
    }
  }

  /** A head starts with its status line and ends with an empty line. */
  lemma HeadShape(code: int, h: Dict)
    ensures StartsWith(Head(code, h), StatusLine(code) + "\r\n")
    ensures EndsWith(Head(code, h), "\r\n\r\n")
  {
    HeadStarts(code, h);
    HeadEnds(code, h);
  }

  lemma HeadStarts(code: int, h: Dict)
    ensures StartsWith(Head(code, h), StatusLine(code) + "\r\n")
  {
    var first := StatusLine(code);
    var rest := HeaderLines(h) + [""];
    AppendAssoc([first], HeaderLines(h), [""]);
    assert ([first] + rest)[0] == first && ([first] + rest)[1..] == rest;
    assert Join([first] + rest, "\r\n") == first + "\r\n" + Join(rest, "\r\n");
    AppendAssoc(first + "\r\n", Join(rest, "\r\n"), "\r\n");
    StartsWithAppend(first + "\r\n", Join(rest, "\r\n") + "\r\n");
  }

  lemma HeadEnds(code: int, h: Dict)
    ensures EndsWith(Head(code, h), "\r\n\r\n")
  {
    var lines := [StatusLine(code)] + HeaderLines(h);
    JoinSnocEmpty(lines, "\r\n");
    AppendAssoc(Join(lines, "\r\n"), "\r\n", "\r\n");
    assert "\r\n" + "\r\n" == "\r\n\r\n";
    EndsWithAppend(Join(lines, "\r\n"), "\r\n\r\n");
  }

  /** What is written starts with the status line, and the body follows the head unchanged. */
  lemma WireShape(r: Response)
    ensures StartsWith(Wire(r), StatusLine(r.code) + "\r\n")
    ensures EndsWith(Head(r.code, Finished(r)), "\r\n\r\n")
    ensures Wire(r)[|Head(r.code, Finished(r))|..] == r.body
  {
    var head := Head(r.code, Finished(r));
    HeadShape(r.code, Finished(r));
    var n := |StatusLine(r.code) + "\r\n"|;
    assert Wire(r)[..n] == head[..n];
  }

  lemma ParseIntNatToString(n: nat)
    ensures ParseInt(NatToString(n)) == Some(n)
  {
    var t := NatToString(n);
    assert IsDigit(t[0]) && IsDigit(t[|t| - 1]);
    StripUnchanged(t);
    ParseNatToString(n);
  }

  lemma LowerContentLength()
    ensures Lower("Content-Length") == "content-length"
  {
  }

  /** The length header reads back, through the request header parser, as the body's length. */
  lemma LengthHeaderReadsBack(r: Response)
    ensures match HeaderLine("Content-Length" + ": " + NatToString(|r.body|))
            case Some((k, v)) => k == "content-length" && ParseInt(v) == Some(|r.body|)
            case None => false
  {
    var n := NatToString(|r.body|);
    assert IsDigit(n[0]) && IsDigit(n[|n| - 1]);
    HeaderLineRoundTrip("Content-Length", n);
    LowerContentLength();
    ParseIntNatToString(|r.body|);
  }

  // ---------------------------------------------------------------------
  // One connection

  /**
   * `handle_client`: nothing is written for an empty stream, a request line
   * of fewer than two parts, or a `content-length` that is not a number;
   * otherwise the handler's response for the path, with its head.
   */
  method HandleClient(lines: seq<string>, s: Services) returns (sent: Option<string>)
    ensures sent.Some? <==>
              && |lines| > 0 && lines[0] != ""
              && RequestLine(lines[0]).Some?
              && ContentLength(Fields(lines[1..][..Terminator(lines[1..])])).Some?
    ensures sent.Some? ==>
              var response := Respond(RequestLine(lines[0]).value.1, s);
              && sent.value == Wire(response)
              && StatusText(response.code) != "Unknown"
  {
    if |lines| == 0 || lines[0] == "" {
      return None;
    }
    var request := RequestLine(lines[0]);
    if request.None? {
      return None;
    }
    var headers := ReadHeaders(lines[1..]);
    var length := ContentLength(headers);
    if length.None? {
      return None;
    }
    var response := Respond(request.value.1, s);
    sent := Some(Wire(response));
  }
}
