/** The response side: choosing a handler from what stat and access report
    about the resolved path, and the four handlers (directory listing,
    file, CGI script, error page). Everything a handler sends to the client
    is appended to the request's `output`; what the operating system would
    answer for the path (stat, access, fopen, scandir, popen) is a `Target`
    value given as a parameter. */
module Handlers {
  import opened Strings
  import opened Requests

  datatype Status = OK | BadRequest | NotFound | InternalServerError

  /** http_status_string is not part of this model: these are the code and
      reason phrase of each status as section 6.1.1 of RFC 1945 gives them. */
  function StatusString(status: Status): string {
    match status
    case OK => "200 OK"
    case BadRequest => "400 Bad Request"
    case NotFound => "404 Not Found"
    case InternalServerError => "500 Internal Server Error"
  }

  datatype FileKind = RegularFile | Directory | OtherKind

  /** What stat reports (the file type) and what access reports (X_OK, R_OK)
      about the resolved path. */
  datatype Attributes = Attributes(kind: FileKind, executable: bool, readable: bool)

  /** What the operating system answers for one resolved path. */
  datatype Target = Target(
    stat: Option<Attributes>,      // None: stat fails
    contents: Option<string>,      // fopen for reading: None when it fails, else the file's bytes
    mimetype: string,              // what determine_mimetype gives for the path
    entries: Option<seq<string>>,  // scandir with alphasort: None when it fails, else the sorted names
    script: Option<string>)        // popen: None when it fails, else everything the script prints

  /** The handler a request goes to. */
  datatype Route = Cgi | File | Browse | Missing

  /** handle_request's decision chain as written: None when the path is a
      regular file with neither execute nor read permission, the case in
      which no branch runs a handler and `result` is returned unassigned. */
  function DispatchAsWritten(stat: Option<Attributes>): Option<Route> {
    match stat
    case None => Some(Missing)
    case Some(a) =>
      if a.kind.RegularFile? then
        if a.executable then Some(Cgi) else if a.readable then Some(File) else None
      else if a.kind.Directory? then Some(Browse)
      else Some(Missing)
  }

  /** The decision chain with the unassigned case answered NOT_FOUND, like
      every other path that no content handler serves. Execute permission
      is tested before read permission, so an executable file is a CGI
      script whether or not it is readable. */
  function Dispatch(stat: Option<Attributes>): (route: Route)
    ensures route == Cgi <==> stat.Some? && stat.value.kind.RegularFile? && stat.value.executable
    ensures route == File <==>
              stat.Some? && stat.value.kind.RegularFile? && !stat.value.executable && stat.value.readable
    ensures route == Browse <==> stat.Some? && stat.value.kind.Directory?
    ensures route == Missing <==>
              (stat.None? || stat.value.kind.OtherKind?
               || (stat.value.kind.RegularFile? && !stat.value.executable && !stat.value.readable))
  {
    match stat
    case None => Missing
    case Some(a) =>
      if a.kind.RegularFile? then
        if a.executable then Cgi else if a.readable then File else Missing
      else if a.kind.Directory? then Browse
      else Missing
  }

  /** The corrected chain agrees with the chain as written wherever the
      latter assigns a result, and the latter leaves it unassigned exactly
      for a regular file that is neither executable nor readable. */
  lemma DispatchCorrectsUnassigned(stat: Option<Attributes>)
    ensures DispatchAsWritten(stat).None? <==>
              stat.Some? && stat.value.kind.RegularFile? && !stat.value.executable && !stat.value.readable
    ensures DispatchAsWritten(stat).Some? ==> DispatchAsWritten(stat).value == Dispatch(stat)
  {
  }

  /** A concrete input on which the chain as written assigns nothing: a
      regular file with mode 0000. */
  lemma UnassignedWitness()
    ensures DispatchAsWritten(Some(Attributes(RegularFile, false, false))).None?
    ensures Dispatch(Some(Attributes(RegularFile, false, false))) == Missing
  {
  }

  /** The first line of every response this server builds itself. */
  function StatusLine(status: Status): string {
    "HTTP/1.0 " + StatusString(status) + "\n"
  }

  /** The part of the error page between the status line and the status
      heading's text: content type, blank line, page and heading openers. */
  const ErrorHead: string := "Content type: text/html\n\r\n<html><body><h1><strong>"

  /** The rest of the error page after the status heading's text. */
  const ErrorTail: string :=
    "</strong></h1><h2>I bet you tried to use sudo</h2><center><img src=\"https://www3.nd.edu/~rbualuan/courses/fundcomp18/pics/ramzinew.jpg\" alt=\"...\"></center><html><body>"

  /** What handle_error writes: the status line, a text/html content type,
      a blank line and a short HTML page naming the status. */
  function ErrorPage(status: Status): (page: string)
  {
    StatusLine(status) + ErrorHead + StatusString(status) + ErrorTail
  }

  /** handle_error: write the error page and return the status it was given. */
  method HandleError(r: Request, status: Status) returns (result: Status)
    modifies r`output
    ensures result == status
    ensures r.output == old(r.output) + ErrorPage(status)
  {
    r.output := r.output + ErrorPage(status);
    result := status;
  }

  /** The entries a listing shows: all but ".", in scandir's order. */
  function Visible(entries: seq<string>): seq<string> {
    if entries == [] then []
    else
      var last := entries[|entries| - 1];
      Visible(entries[..|entries| - 1]) + (if last == "." then [] else [last])
  }

  /** Every entry except "." is listed as often as scandir returned it;
      "." is never listed. */
  lemma {:induction false} VisibleCounts(entries: seq<string>)
    ensures forall e :: multiset(Visible(entries))[e] == if e == "." then 0 else multiset(entries)[e]
  {
    if entries != [] {
      var init, last := entries[..|entries| - 1], entries[|entries| - 1];
      VisibleCounts(init);
      assert entries == init + [last];
    }
  }

  /** The listing keeps scandir's order: entries sorted by a relation stay
      sorted by it once "." is dropped. */
  lemma {:induction false} VisibleKeepsOrder(entries: seq<string>, before: (string, string) -> bool)
    requires forall i, j :: 0 <= i < j < |entries| ==> before(entries[i], entries[j])
    ensures forall i, j :: 0 <= i < j < |Visible(entries)| ==> before(Visible(entries)[i], Visible(entries)[j])
  {
    if entries != [] {
      var init, last := entries[..|entries| - 1], entries[|entries| - 1];
      VisibleKeepsOrder(init, before);
      VisibleCounts(init);
      var v0 := Visible(init);
      forall x | x in v0 ensures before(x, last) {
        assert multiset(v0)[x] > 0;
        assert x in init;
        var i :| 0 <= i < |init| && init[i] == x;
        assert entries[i] == x;
      }
      var v := Visible(entries);
      assert v == v0 + (if last == "." then [] else [last]);
      forall i, j | 0 <= i < j < |v| ensures before(v[i], v[j]) {
        if j < |v0| {
          assert v[i] == v0[i] && v[j] == v0[j];
        } else {
          assert v[i] == v0[i] && v[i] in v0 && v[j] == last;
        }
      }
    }
  }

  /** Extending the scanned prefix by one entry lists that entry unless
      it is ".". */
  lemma VisibleStep(entries: seq<string>, i: nat)
    requires i < |entries|
    ensures Visible(entries[..i + 1])
            == if entries[i] == "." then Visible(entries[..i]) else Visible(entries[..i]) + [entries[i]]
  {
    assert entries[..i + 1][..i] == entries[..i];
  }

  /** The link target of an entry: the request uri (nothing for the root
      uri "/") followed by "/" and the entry name. */
  function Href(uri: string, name: string): string {
    (if uri == "/" then "" else uri) + "/" + name
  }

  /** One list item of the listing. */
  function Item(uri: string, name: string): string {
    "<li style=\"font-family:courier new;font-size:32px;font-color=green;\"><a href=\""
    + Href(uri, name) + "\">" + name + "</a></li>\n"
  }

  /** The list items for the given names, in order. */
  function Items(uri: string, names: seq<string>): string {
    if names == [] then "" else Items(uri, names[..|names| - 1]) + Item(uri, names[|names| - 1])
  }

  lemma ItemsSnoc(uri: string, names: seq<string>, name: string)
    ensures Items(uri, names + [name]) == Items(uri, names) + Item(uri, name)
  {
    assert (names + [name])[..|names|] == names;
  }

  const BrowseHead: string :=
    StatusLine(OK) + "Content-Type: text/html\r\n" + "\r\n"
    + "<html><body bgcolor=#9aa1ad><ul class='list-group'>\n"

  const BrowseTail: string := "</ul></body></html>\n"

  /** The whole directory listing response. */
  function Listing(uri: string, entries: seq<string>): (listing: string)
    ensures StatusLine(OK) <= listing
  {
    BrowseHead + Items(uri, Visible(entries)) + BrowseTail
  }

  /** What handle_browse_request answers: NOT_FOUND when the directory
      cannot be scanned, otherwise the listing. */
  function BrowseReply(entries: Option<seq<string>>, uri: string): (Status, string) {
    if entries.None? then (NotFound, ErrorPage(NotFound)) else (OK, Listing(uri, entries.value))
  }

  /** The loop of handle_browse_request: one item per entry except ".". */
  method ListEntries(r: Request, uri: string, names: seq<string>)
    modifies r`output
    ensures r.output == old(r.output) + Items(uri, Visible(names))
  {
    assert r.output + Items(uri, Visible(names[..0])) == r.output;
    for i := 0 to |names|
      invariant r.output == old(r.output) + Items(uri, Visible(names[..i]))
    {
      VisibleStep(names, i);
      if names[i] != "." {
        ItemsSnoc(uri, Visible(names[..i]), names[i]);
        Assoc(old(r.output), Items(uri, Visible(names[..i])), Item(uri, names[i]));
        r.output := r.output + Item(uri, names[i]);
      }
    }
    assert names[..|names|] == names;
  }

  /** handle_browse_request: NOT_FOUND when the directory cannot be
      scanned; otherwise one list item per entry except ".", in scandir's
      order, and OK. */
  method HandleBrowse(r: Request, entries: Option<seq<string>>) returns (status: Status)
    requires r.uri.Some?
    modifies r`output
    ensures status == BrowseReply(entries, r.uri.value).0
    ensures r.output == old(r.output) + BrowseReply(entries, r.uri.value).1
  {
    if entries.None? {
      status := HandleError(r, NotFound);
      return;
    }
    var names := entries.value;
    r.output := r.output + BrowseHead;
    ListEntries(r, r.uri.value, names);
    r.output := r.output + BrowseTail;
    Regroup(old(r.output), BrowseHead, Items(r.uri.value, Visible(names)), BrowseTail);
    status := OK;
  }

  /** Helper for the loop proofs: string concatenation regroups. */
  lemma Assoc(a: string, b: string, c: string)
    ensures a + b + c == a + (b + c)
  {
  }

  /** Appending the parts of a response one by one appends the response. */
  lemma Regroup(out: string, a: string, b: string, c: string)
    ensures out + a + b + c == out + (a + b + c)
  {
  }

  /** BUFSIZ of the C library (glibc's value): the size of the copy buffer. */
  const BufSiz: nat := 8192

  /** The header of a file response. */
  function FileHead(mimetype: string): (head: string)
    ensures StatusLine(OK) <= head
  {
    StatusLine(OK) + "Content type: " + mimetype + "\n" + "\r\n"
  }

  /** fread(buffer, 1, size, fs) on a file whose unread part starts at
      `offset`: fills the front of the buffer with the next bytes. */
  method Fread(buffer: array<char>, file: string, offset: nat) returns (nread: nat)
    requires offset <= |file|
    modifies buffer
    ensures nread == if buffer.Length < |file| - offset then buffer.Length else |file| - offset
    ensures buffer[..nread] == file[offset..offset + nread]
  {
    nread := if buffer.Length < |file| - offset then buffer.Length else |file| - offset;
    for i := 0 to nread
      invariant buffer[..i] == file[offset..offset + i]
    {
      buffer[i] := file[offset + i];
      assert buffer[..i + 1] == buffer[..i] + [buffer[i]];
    }
  }

  /** What handle_file_request answers: NOT_FOUND when the file cannot be
      opened, otherwise the header and the file's bytes. */
  function FileReply(contents: Option<string>, mimetype: string): (Status, string) {
    if contents.None? then (NotFound, ErrorPage(NotFound)) else (OK, FileHead(mimetype) + contents.value)
  }

  /** handle_file_request: NOT_FOUND when the file cannot be opened;
      otherwise the 200 header with the file's MIME type, then the file's
      bytes in order, copied through a BUFSIZ buffer, and OK. */
  method HandleFile(r: Request, contents: Option<string>, mimetype: string) returns (status: Status)
    modifies r`output
    ensures status == FileReply(contents, mimetype).0
    ensures r.output == old(r.output) + FileReply(contents, mimetype).1
  {
    if contents.None? {
      status := HandleError(r, NotFound);
      return;
    }
    var file := contents.value;
    r.output := r.output + FileHead(mimetype);
    var buffer := new char[BufSiz];
    var offset := 0;
    while true
      invariant offset <= |file|
      invariant r.output == old(r.output) + FileHead(mimetype) + file[..offset]
      decreases |file| - offset
    {
      var nread := Fread(buffer, file, offset);
      if nread == 0 {
        break;
      }
      assert file[..offset + nread] == file[..offset] + buffer[..nread];
      r.output := r.output + buffer[..nread];
      offset := offset + nread;
    }
    assert file[..offset] == file;
    status := OK;
  }

  /** The process environment that setenv updates. */
  class Environment {
    var vars: map<string, string>

    constructor (vars: map<string, string>)
      ensures this.vars == vars
    {
      this.vars := vars;
    }
  }

  /** The eight variables exported from the request and the configuration. */
  function FixedVariables(env: map<string, string>, rootPath: string, query: string, host: string,
                          port: string, httpMethod: string, uri: string, path: string,
                          serverPort: string): map<string, string>
  {
    env["DOCUMENT_ROOT" := rootPath]["QUERY_STRING" := query]["REMOTE_ADDR" := host]
       ["REMOTE_PORT" := port]["REQUEST_METHOD" := httpMethod]["REQUEST_URI" := uri]
       ["SCRIPT_FILENAME" := path]["SERVER_PORT" := serverPort]
  }

  /** The variable an allow-listed header sets; the names are compared
      exactly (case-sensitively). */
  function HeaderVariable(name: string): Option<string> {
    if name == "Accept" then Some("HTTP_ACCEPT")
    else if name == "Accept-Encoding" then Some("HTTP_ACCEPT_ENCODING")
    else if name == "Accept-Language" then Some("HTTP_ACCEPT_LANGUAGE")
    else if name == "Connection" then Some("HTTP_CONNECTION")
    else if name == "Host" then Some("HTTP_HOST")
    else if name == "User-Agent" then Some("HTTP_USER_AGENT")
    else None
  }

  /** The six variables headers can set. */
  const HeaderVariables: set<string> := {
    "HTTP_ACCEPT", "HTTP_ACCEPT_ENCODING", "HTTP_ACCEPT_LANGUAGE",
    "HTTP_CONNECTION", "HTTP_HOST", "HTTP_USER_AGENT"
  }

  /** One step of the export loop. */
  function ExportHeader(env: map<string, string>, h: Header): map<string, string> {
    match HeaderVariable(h.name)
    case None => env
    case Some(v) => env[v := h.value]
  }

  /** The export loop: visit the list from its head until a node with a
      NULL name (the sentinel) or the end, setting (with overwrite) the
      variable of every allow-listed header. */
  function ExportHeaders(env: map<string, string>, list: seq<HeaderNode>): map<string, string>
    decreases |list|
  {
    if list == [] || list[0].Sentinel? then env
    else ExportHeaders(ExportHeader(env, list[0].header), list[1..])
  }

  /** The value of the header with this name that the export loop visits
      last, if it visits any. */
  function LastVisited(list: seq<HeaderNode>, name: string): Option<string> {
    if list == [] || list[0].Sentinel? then None
    else
      var later := LastVisited(list[1..], name);
      if later.Some? then later
      else if list[0].header.name == name then Some(list[0].header.value)
      else None
  }

  /** The value of the earliest header with this name, in arrival order. */
  function FirstArrived(hs: seq<Header>, name: string): Option<string> {
    if hs == [] then None
    else if hs[0].name == name then Some(hs[0].value)
    else FirstArrived(hs[1..], name)
  }

  /** The export loop sets only the six header variables; each of them ends
      up with the value of the last visited header of its name, and keeps
      its old value when no such header is visited. */
  lemma {:induction false} ExportHeadersSets(env: map<string, string>, list: seq<HeaderNode>)
    ensures forall k :: k !in HeaderVariables ==>
              (k in ExportHeaders(env, list) <==> k in env)
              && (k in env ==> ExportHeaders(env, list)[k] == env[k])
    ensures forall name :: HeaderVariable(name).Some? && LastVisited(list, name).Some? ==>
              var v := HeaderVariable(name).value;
              v in ExportHeaders(env, list) && ExportHeaders(env, list)[v] == LastVisited(list, name).value
    ensures forall name :: HeaderVariable(name).Some? && LastVisited(list, name).None? ==>
              var v := HeaderVariable(name).value;
              (v in ExportHeaders(env, list) <==> v in env)
              && (v in env ==> ExportHeaders(env, list)[v] == env[v])
    decreases |list|
  {
    if list != [] && list[0].Entry? {
      ExportHeadersSets(ExportHeader(env, list[0].header), list[1..]);
    }
  }

  /** On the list the parser builds (later headers prepended in front of
      what was there), the last visited header of a name is the earliest to
      arrive, unless the older part of the list already holds one. */
  lemma {:induction false} LastVisitedIsFirstArrived(hs: seq<Header>, list: seq<HeaderNode>, name: string)
    ensures LastVisited(Prepended(hs, list), name)
            == if LastVisited(list, name).Some? then LastVisited(list, name) else FirstArrived(hs, name)
    decreases |hs|
  {
    if hs != [] {
      LastVisitedIsFirstArrived(hs[1..], [Entry(hs[0])] + list, name);
      assert ([Entry(hs[0])] + list)[1..] == list;
    }
  }

  /** With duplicates of an allow-listed header, the variable takes the
      value of the header that arrived first. */
  lemma EarliestDuplicateWins(env: map<string, string>, hs: seq<Header>, name: string)
    requires HeaderVariable(name).Some? && FirstArrived(hs, name).Some?
    ensures var v := HeaderVariable(name).value;
            var e := ExportHeaders(env, Prepended(hs, [Sentinel]));
            v in e && e[v] == FirstArrived(hs, name).value
  {
    LastVisitedIsFirstArrived(hs, [Sentinel], name);
    ExportHeadersSets(env, Prepended(hs, [Sentinel]));
  }

  /** A variable no header can set keeps its presence and value across the
      export loop. */
  lemma HeaderFree(m: map<string, string>, list: seq<HeaderNode>, k: string)
    requires k !in HeaderVariables && k in m
    ensures k in ExportHeaders(m, list) && ExportHeaders(m, list)[k] == m[k]
  {
    ExportHeadersSets(m, list);
  }

  /** Headers never disturb the eight fixed variables, whatever the list. */
  lemma FixedVariablesKept(env: map<string, string>, rootPath: string, query: string, host: string,
                           port: string, httpMethod: string, uri: string, path: string,
                           serverPort: string, list: seq<HeaderNode>)
    ensures var e := ExportHeaders(FixedVariables(env, rootPath, query, host, port, httpMethod, uri, path, serverPort), list);
            && "DOCUMENT_ROOT" in e && e["DOCUMENT_ROOT"] == rootPath
            && "QUERY_STRING" in e && e["QUERY_STRING"] == query
            && "REMOTE_ADDR" in e && e["REMOTE_ADDR"] == host
            && "REMOTE_PORT" in e && e["REMOTE_PORT"] == port
            && "REQUEST_METHOD" in e && e["REQUEST_METHOD"] == httpMethod
            && "REQUEST_URI" in e && e["REQUEST_URI"] == uri
            && "SCRIPT_FILENAME" in e && e["SCRIPT_FILENAME"] == path
            && "SERVER_PORT" in e && e["SERVER_PORT"] == serverPort
  {
    var m := FixedVariables(env, rootPath, query, host, port, httpMethod, uri, path, serverPort);
    HeaderFree(m, list, "DOCUMENT_ROOT");
    HeaderFree(m, list, "QUERY_STRING");
    HeaderFree(m, list, "REMOTE_ADDR");
    HeaderFree(m, list, "REMOTE_PORT");
    HeaderFree(m, list, "REQUEST_METHOD");
    HeaderFree(m, list, "REQUEST_URI");
    HeaderFree(m, list, "SCRIPT_FILENAME");
    HeaderFree(m, list, "SERVER_PORT");
  }

  /** What handle_cgi_request answers: INTERNAL_SERVER_ERROR when the
      script cannot be started, otherwise the script's own output. */
  function CgiReply(script: Option<string>): (Status, string) {
    if script.None? then (InternalServerError, ErrorPage(InternalServerError)) else (OK, script.value)
  }

  /** The header loop of handle_cgi_request: walk the list from its head
      to the first node with a NULL name, exporting the allow-listed
      headers. */
  method ExportRequestHeaders(env: Environment, list: seq<HeaderNode>)
    modifies env
    ensures env.vars == ExportHeaders(old(env.vars), list)
  {
    var header := list;
    while header != [] && header[0].Entry?
      invariant ExportHeaders(env.vars, header) == ExportHeaders(old(env.vars), list)
      decreases |header|
    {
      var h := header[0].header;
      ghost var before := env.vars;
      if h.name == "Accept" {
        env.vars := env.vars["HTTP_ACCEPT" := h.value];
      }
      if h.name == "Accept-Encoding" {
        env.vars := env.vars["HTTP_ACCEPT_ENCODING" := h.value];
      }
      if h.name == "Accept-Language" {
        env.vars := env.vars["HTTP_ACCEPT_LANGUAGE" := h.value];
      }
      if h.name == "Connection" {
        env.vars := env.vars["HTTP_CONNECTION" := h.value];
      }
      if h.name == "Host" {
        env.vars := env.vars["HTTP_HOST" := h.value];
      }
      if h.name == "User-Agent" {
        env.vars := env.vars["HTTP_USER_AGENT" := h.value];
      }
      assert env.vars == ExportHeader(before, h);
      header := header[1..];
    }
  }

  /** handle_cgi_request: export the eight fixed variables and the
      allow-listed headers, then run the script; INTERNAL_SERVER_ERROR when
      it cannot be started, otherwise its output copied verbatim and OK. */
  method HandleCgi(r: Request, env: Environment, rootPath: string, serverPort: string, script: Option<string>)
    returns (status: Status)
    requires r.query.Some? && r.httpMethod.Some? && r.uri.Some? && r.path.Some?
    modifies env, r`output
    ensures env.vars == ExportHeaders(FixedVariables(old(env.vars), rootPath, r.query.value, r.host, r.port,
                                                     r.httpMethod.value, r.uri.value, r.path.value, serverPort),
                                      r.headers)
    ensures status == CgiReply(script).0
    ensures r.output == old(r.output) + CgiReply(script).1
  {
    env.vars := env.vars["DOCUMENT_ROOT" := rootPath];
    env.vars := env.vars["QUERY_STRING" := r.query.value];
    env.vars := env.vars["REMOTE_ADDR" := r.host];
    env.vars := env.vars["REMOTE_PORT" := r.port];
    env.vars := env.vars["REQUEST_METHOD" := r.httpMethod.value];
    env.vars := env.vars["REQUEST_URI" := r.uri.value];
    env.vars := env.vars["SCRIPT_FILENAME" := r.path.value];
    env.vars := env.vars["SERVER_PORT" := serverPort];
    ExportRequestHeaders(env, r.headers);
    if script.None? {
      status := HandleError(r, InternalServerError);
      return;
    }
    r.output := r.output + script.value;
    status := OK;
  }

  /** The status and the text a route sends for a target. */
  function Reply(route: Route, t: Target, uri: string): (Status, string) {
    match route
    case Missing => (NotFound, ErrorPage(NotFound))
    case File => FileReply(t.contents, t.mimetype)
    case Browse => BrowseReply(t.entries, uri)
    case Cgi => CgiReply(t.script)
  }

  /** Every response the server writes itself opens with the status line
      of the status handle_request returns; only a CGI script that started
      writes its own. */
  lemma ReplyOpensWithStatus(route: Route, t: Target, uri: string)
    requires route != Cgi || t.script.None?
    ensures StatusLine(Reply(route, t, uri).0) <= Reply(route, t, uri).1
  {
    if route == File && t.contents.Some? {
      var head := FileHead(t.mimetype);
      assert (head + t.contents.value)[..|StatusLine(OK)|] == head[..|StatusLine(OK)|];
    }
  }

  /** The second half of handle_request: run the handler that Dispatch
      picks for the resolved path. */
  method Respond(r: Request, t: Target, env: Environment, rootPath: string, serverPort: string)
    returns (status: Status)
    requires r.query.Some? && r.httpMethod.Some? && r.uri.Some? && r.path.Some?
    modifies env, r`output
    ensures status == Reply(Dispatch(t.stat), t, r.uri.value).0
    ensures r.output == old(r.output) + Reply(Dispatch(t.stat), t, r.uri.value).1
    ensures Dispatch(t.stat) != Cgi ==> env.vars == old(env.vars)
    ensures Dispatch(t.stat) == Cgi ==>
              env.vars == ExportHeaders(FixedVariables(old(env.vars), rootPath, r.query.value, r.host, r.port,
                                                       r.httpMethod.value, r.uri.value, r.path.value, serverPort),
                                        r.headers)
  {
    match Dispatch(t.stat)
    case Cgi =>
      status := HandleCgi(r, env, rootPath, serverPort, t.script);
    case File =>
      status := HandleFile(r, t.contents, t.mimetype);
    case Browse =>
      status := HandleBrowse(r, t.entries);
    case Missing =>
      status := HandleError(r, NotFound);
  }

  /** What handle_request does once the request has parsed: the status it
      returns, the text it sends, the environment it leaves and the path it
      records. */
  datatype Answer = Answer(status: Status, text: string, env: map<string, string>, path: Option<string>)

  /** The answer to a parsed request: NOT_FOUND when the uri does not
      resolve; otherwise the reply of the handler that Dispatch picks, with
      the CGI variables exported only when that handler is the CGI one. */
  function Answered(httpMethod: string, uri: string, query: string, headers: seq<HeaderNode>, host: string,
                    port: string, env: map<string, string>, resolve: string -> Option<string>,
                    world: string -> Target, rootPath: string, serverPort: string): Answer
  {
    match resolve(uri)
    case None => Answer(NotFound, ErrorPage(NotFound), env, None)
    case Some(path) =>
      var t := world(path);
      var route := Dispatch(t.stat);
      var exported := FixedVariables(env, rootPath, query, host, port, httpMethod, uri, path, serverPort);
      Answer(Reply(route, t, uri).0, Reply(route, t, uri).1,
             if route == Cgi then ExportHeaders(exported, headers) else env, Some(path))
  }

  /** The part of handle_request after a successful parse: resolve the
      uri to a path, NOT_FOUND when that fails, otherwise respond. */
  method Serve(r: Request, resolve: string -> Option<string>, world: string -> Target,
               env: Environment, rootPath: string, serverPort: string)
    returns (status: Status)
    requires r.query.Some? && r.httpMethod.Some? && r.uri.Some?
    modifies r`path, r`output, env
    ensures var a := Answered(r.httpMethod.value, r.uri.value, r.query.value, r.headers, r.host, r.port,
                              old(env.vars), resolve, world, rootPath, serverPort);
            (status, r.output, env.vars, r.path) == (a.status, old(r.output) + a.text, a.env, a.path)
  {
    r.path := resolve(r.uri.value);
    if r.path.None? {
      status := HandleError(r, NotFound);
      return;
    }
    status := Respond(r, world(r.path.value), env, rootPath, serverPort);
  }

  /** handle_request: parse; BAD_REQUEST when parsing fails, before the
      path is resolved; otherwise the request's method, uri and query are
      the request line's, the parsed headers sit in front of the list the
      request arrived with, and the answer is the one for that request (the
      peer's host and port are left as accepted). */
  method HandleRequest(r: Request, lex: Lexicon, resolve: string -> Option<string>, world: string -> Target,
                       env: Environment, rootPath: string, serverPort: string)
    returns (status: Status)
    modifies r`input, r`httpMethod, r`uri, r`query, r`headers, r`path, r`output, env
    ensures !Parses(old(r.input), old(r.headers), lex) ==>
              status == BadRequest && r.path == old(r.path) && env.vars == old(env.vars)
              && r.output == old(r.output) + ErrorPage(BadRequest)
    ensures Parses(old(r.input), old(r.headers), lex) ==>
              var line := LineOf(old(r.input), lex.whitespace);
              r.httpMethod == Some(line.httpMethod) && r.uri == Some(line.uri) && r.query == Some(line.query)
              && r.headers == Prepended(ScanHeaders(old(r.input)[1..], lex).parsed, old(r.headers))
    ensures Parses(old(r.input), old(r.headers), lex) ==>
              && r.httpMethod.Some? && r.uri.Some? && r.query.Some?
              && var a := Answered(r.httpMethod.value, r.uri.value, r.query.value, r.headers, r.host, r.port,
                                   old(env.vars), resolve, world, rootPath, serverPort);
                 (status, r.output, env.vars, r.path) == (a.status, old(r.output) + a.text, a.env, a.path)
  {
    var rc := r.ParseRequest(lex);
    if rc < 0 {
      status := HandleError(r, BadRequest);
      return;
    }
    status := Serve(r, resolve, world, env, rootPath, serverPort);
  }
}
