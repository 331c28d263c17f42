/** The request side of the server: accepting a connection into a request
    record, parsing the request line and the header block from the client's
    stream, and releasing the record.

    The client's stream is a sequence of lines (what successive fgets calls
    return); the header list is a sequence in list order, so prepending a
    node is `[node] + headers`. */
module Requests {
  import opened Strings

  /** The character classes and the line-terminator stripper that the parser
      borrows from the server's shared header and utilities: `whitespace` is
      the WHITESPACE delimiter set given to strtok, `space` the characters
      skip_whitespace skips, `chomp` the helper that strips a line's
      terminator in place. */
  datatype Lexicon = Lexicon(whitespace: set<char>, space: set<char>, chomp: string -> string)

  datatype Header = Header(name: string, value: string)

  /** A node of the request's header list: the zero-filled node that
      accept_request puts there first (NULL name, NULL value), or a parsed
      header. */
  datatype HeaderNode = Sentinel | Entry(header: Header)

  /** The header list after prepending one node per header of hs, in the
      order of hs, onto list. */
  function Prepended(hs: seq<Header>, list: seq<HeaderNode>): seq<HeaderNode> {
    if hs == [] then list else Prepended(hs[1..], [Entry(hs[0])] + list)
  }

  /** Each prepend adds one node. */
  lemma {:induction false} PrependedLength(hs: seq<Header>, list: seq<HeaderNode>)
    ensures |Prepended(hs, list)| == |hs| + |list|
    decreases |hs|
  {
    if hs != [] {
      PrependedLength(hs[1..], [Entry(hs[0])] + list);
    }
  }

  /** Traversing the list after the prepends visits the headers in reverse
      arrival order and then the nodes that were there before. */
  lemma {:induction false} PrependedOrder(hs: seq<Header>, list: seq<HeaderNode>)
    ensures |Prepended(hs, list)| == |hs| + |list|
    ensures forall k :: 0 <= k < |hs| ==> Prepended(hs, list)[k] == Entry(hs[|hs| - 1 - k])
    ensures Prepended(hs, list)[|hs|..] == list
    decreases |hs|
  {
    if hs != [] {
      PrependedOrder(hs[1..], [Entry(hs[0])] + list);
    }
  }

  /** What the request-line phase makes of the first line. */
  datatype LineParse =
    | Unreadable                        // no line could be read
    | NoMethod                          // the line holds only delimiters
    | NoTarget(httpMethod: string)          // a method but no second token
    | QueryOnlyTarget(httpMethod: string)   // a target made only of '?'
    | Line(httpMethod: string, uri: string, query: string)

  /** The request-line phase on one line: the first strtok token is the
      method, the second the target; strtok with "?" cuts the uri out of
      the target and strtok(NULL, WHITESPACE) takes the query after it. */
  function RequestLineOf(line: string, ws: set<char>): (p: LineParse)
    ensures p != Unreadable
    ensures p == NoMethod <==> AllIn(line, ws)
  {
    match Strtok(line, ws)
    case None => NoMethod
    case Some(m) =>
      var afterMethod := Rest(line, m);
      match Strtok(afterMethod, ws)
      case None => NoTarget(Text(line, m))
      case Some(t) =>
        match UriAndQuery(Text(afterMethod, t), ws)
        case None => QueryOnlyTarget(Text(line, m))
        case Some((uri, query)) => Line(Text(line, m), uri, query)
  }

  /** What strtok with "?" and then strtok(NULL, WHITESPACE) cut out of a
      target: the uri and the query ("" when there is no second token);
      None when the target holds nothing but '?'. */
  function UriAndQuery(target: string, ws: set<char>): (r: Option<(string, string)>)
    ensures r.None? <==> AllIn(target, {'?'})
    ensures r.Some? ==> r.value.0 != [] && NoneIn(r.value.0, {'?'}) && NoneIn(r.value.1, ws)
  {
    match Strtok(target, {'?'})
    case None => None
    case Some(u) =>
      var afterUri := Rest(target, u);
      var query := match Strtok(afterUri, ws)
        case None => ""
        case Some(q) => Text(afterUri, q);
      Some((Text(target, u), query))
  }

  /** A parsed request line has a non-empty method free of whitespace, a
      non-empty uri free of '?', and a query free of whitespace. */
  lemma RequestLineTokens(line: string, ws: set<char>)
    ensures var p := RequestLineOf(line, ws);
            p.Line? ==> && p.httpMethod != [] && NoneIn(p.httpMethod, ws)
                        && p.uri != [] && NoneIn(p.uri, {'?'}) && NoneIn(p.query, ws)
  {
  }

  /** The request-line phase on the client's stream. */
  function LineOf(input: seq<string>, ws: set<char>): LineParse {
    if input == [] then Unreadable else RequestLineOf(input[0], ws)
  }

  /** A target cut at its first '?': the part before it and the part after
      it ("" when there is no '?'). */
  function SplitQuery(target: string): (r: (string, string))
    ensures '?' !in r.0
    ensures '?' in target ==> target == r.0 + "?" + r.1
    ensures '?' !in target ==> r == (target, "")
  {
    var i := SkipOut(target, {'?'}, 0);
    if i < |target| then (target[..i], target[i + 1..]) else (target, "")
  }

  /** A request line `<METHOD> <TARGET>...` whose target does not start with
      '?': the method is the first token, the uri is the target up to its
      first '?', the query is all of the target after that '?' (further '?'
      included) and "" when there is none. Nothing after the delimiter that
      ends the target (the version) is examined, and it may be absent. */
  lemma {:induction false} RequestLineSplit(lead: string, httpMethod: string, sep: string, target: string,
                                            tail: string, ws: set<char>)
    requires AllIn(lead, ws) && sep != [] && AllIn(sep, ws)
    requires httpMethod != [] && NoneIn(httpMethod, ws)
    requires target != [] && NoneIn(target, ws) && target[0] != '?'
    requires tail == [] || tail[0] in ws
    ensures RequestLineOf(lead + httpMethod + sep + target + tail, ws)
            == Line(httpMethod, SplitQuery(target).0, SplitQuery(target).1)
  {
    var rest := sep + target + tail;
    assert lead + httpMethod + sep + target + tail == lead + httpMethod + rest;
    StrtokAt(lead, httpMethod, rest, ws);
    assert rest[1..] == sep[1..] + target + tail;
    assert AllIn(sep[1..], ws) by {
      forall k | 0 <= k < |sep| - 1 ensures sep[1..][k] in ws {
        assert sep[1..][k] == sep[k + 1];
      }
    }
    StrtokAt(sep[1..], target, tail, ws);
    QueryCut(target, ws);
  }

  /** strtok with "?" followed by strtok(NULL, WHITESPACE) cuts a target that
      does not start with '?' exactly where SplitQuery does. */
  lemma QueryCut(target: string, ws: set<char>)
    requires target != [] && NoneIn(target, ws) && target[0] != '?'
    ensures UriAndQuery(target, ws) == Some(SplitQuery(target))
  {
    var (u, q) := SplitQuery(target);
    if '?' in target {
      assert NoneIn(u, {'?'});
      StrtokAt([], u, "?" + q, {'?'});
      assert [] + u + ("?" + q) == target;
      assert NoneIn(q, ws) by {
        forall k | 0 <= k < |q| ensures q[k] !in ws {
          assert q[k] == target[|u| + 1 + k];
        }
      }
      StrtokWhole(q, ws);
    } else {
      StrtokWhole(target, {'?'});
    }
  }

  /** Why a header line is refused. */
  datatype HeaderError = MissingColon | MissingName

  /** One header line: chomp it; the value starts after the first ':' once
      skip_whitespace has passed the spaces; the name is strtok's first
      ':'-token. strtok writes a NUL at the ':' that ends the name, and the
      value is duplicated after that write, so the value stops there when
      that ':' lies inside it (possible only when the line starts with ':'). */
  function HeaderLine(line: string, lex: Lexicon): (h: Result<Header, HeaderError>)
    ensures h == Err(MissingColon) <==> ':' !in lex.chomp(line)
    ensures h == Err(MissingName) <==> ':' in lex.chomp(line) && AllIn(lex.chomp(line), {':'})
    ensures h.Ok? ==> h.value.name != [] && ':' !in h.value.name
  {
    var s := lex.chomp(line);
    var colon := SkipOut(s, {':'}, 0);
    if colon == |s| then Err(MissingColon)
    else
      var v := SkipIn(s, lex.space, colon + 1);
      match Strtok(s, {':'})
      case None => Err(MissingName)
      case Some(n) => Ok(Header(Text(s, n), if v <= n.end < |s| then s[v..n.end] else s[v..]))
  }

  /** A line `<NAME>:<spaces><VALUE>` (after chomp) whose name holds no ':'
      gives that name and that value, ':' characters in the value included. */
  lemma HeaderLineSplit(line: string, lex: Lexicon, name: string, pad: string, value: string)
    requires lex.chomp(line) == name + ":" + pad + value
    requires name != [] && ':' !in name
    requires AllIn(pad, lex.space) && (value == [] || value[0] !in lex.space)
    ensures HeaderLine(line, lex) == Ok(Header(name, value))
  {
    var s := lex.chomp(line);
    HeaderNameAt(name, ":" + pad + value);
    assert s == name + (":" + pad + value);
    HeaderValueAt(s, |name| + 1, pad, value, lex.space);
  }

  /** In `<NAME>:<REST>` with no ':' in the name, the first ':' ends the
      name and strtok with ":" gives the name. */
  lemma HeaderNameAt(name: string, rest: string)
    requires name != [] && ':' !in name
    requires rest != [] && rest[0] == ':'
    ensures SkipOut(name + rest, {':'}, 0) == |name|
    ensures Strtok(name + rest, {':'}) == Some(Span(0, |name|))
    ensures Text(name + rest, Span(0, |name|)) == name
  {
    var s := name + rest;
    forall k | 0 <= k < |name| ensures s[k] !in {':'} {
      assert s[k] == name[k];
    }
    SkipOutAt(s, {':'}, 0, |name|);
    StrtokAt([], name, rest, {':'});
    assert [] + name + rest == s;
  }

  /** Skipping the spaces of `<PAD><VALUE>` from where the pad starts lands
      on the value. */
  lemma HeaderValueAt(s: string, at: nat, pad: string, value: string, space: set<char>)
    requires at <= |s| && s[at..] == pad + value
    requires AllIn(pad, space) && (value == [] || value[0] !in space)
    ensures SkipIn(s, space, at) == at + |pad|
    ensures s[at + |pad|..] == value
  {
    forall k | at <= k < at + |pad| ensures s[k] in space {
      assert s[k] == s[at..][k - at] == pad[k - at];
    }
    assert at + |pad| < |s| ==> s[at + |pad|] == s[at..][|pad|] == value[0];
    SkipInAt(s, space, at, at + |pad|);
    assert s[at + |pad|..] == s[at..][|pad|..];
  }

  /** What the header loop does with the lines after the request line:
      the headers parsed (in arrival order), how many lines it read, and
      whether it stopped at a malformed line. */
  datatype HeaderScan = HeaderScan(parsed: seq<Header>, consumed: nat, malformed: bool)

  /** The header loop: read lines while a line can be read and is longer
      than two characters; each such line must parse as a header. */
  function ScanHeaders(lines: seq<string>, lex: Lexicon): (scan: HeaderScan)
    ensures |scan.parsed| <= scan.consumed <= |lines|
  {
    if lines == [] then HeaderScan([], 0, false)
    else if |lines[0]| <= 2 then HeaderScan([], 1, false)
    else match HeaderLine(lines[0], lex)
      case Err(_) => HeaderScan([], 1, true)
      case Ok(h) =>
        var rest := ScanHeaders(lines[1..], lex);
        HeaderScan([h] + rest.parsed, 1 + rest.consumed, rest.malformed)
  }

  /** What one turn of the header loop does. */
  datatype HeaderStep = Stop | Fail | Read(header: Header)

  /** The header loop reads exactly the well-formed header lines at the
      front of the stream, in arrival order, and then either runs out of
      input, or reads one more line that is either short (the end of the
      block) or malformed. */
  lemma {:induction false} ScanHeadersReads(lines: seq<string>, lex: Lexicon)
    ensures var scan := ScanHeaders(lines, lex);
            && (forall k :: 0 <= k < |scan.parsed| ==>
                  |lines[k]| > 2 && HeaderLine(lines[k], lex) == Ok(scan.parsed[k]))
            && (scan.consumed == |scan.parsed| ==> scan.consumed == |lines| && !scan.malformed)
            && (scan.consumed != |scan.parsed| ==> scan.consumed == |scan.parsed| + 1)
            && (scan.consumed == |scan.parsed| + 1 ==>
                  (scan.malformed <==> |lines[|scan.parsed|]| > 2 && HeaderLine(lines[|scan.parsed|], lex).Err?))
            && (scan.consumed == |scan.parsed| + 1 && !scan.malformed ==> |lines[|scan.parsed|]| <= 2)
  {
    if lines != [] && |lines[0]| > 2 && HeaderLine(lines[0], lex).Ok? {
      ScanHeadersReads(lines[1..], lex);
    }
  }

  /** A block of header lines closed by a short (blank) line is read up to
      and including that line, and yields its headers in arrival order. */
  lemma {:induction false} HeaderBlockParsed(block: seq<string>, hs: seq<Header>, rest: seq<string>, lex: Lexicon)
    requires |block| == |hs| + 1
    requires forall k :: 0 <= k < |hs| ==> |block[k]| > 2 && HeaderLine(block[k], lex) == Ok(hs[k])
    requires |block[|hs|]| <= 2
    ensures ScanHeaders(block + rest, lex) == HeaderScan(hs, |hs| + 1, false)
  {
    var lines := block + rest;
    var scan := ScanHeaders(lines, lex);
    ScanHeadersReads(lines, lex);
    forall k | 0 <= k < |block| ensures lines[k] == block[k] { }
    assert |scan.parsed| == |hs|;
    assert lines[|hs|] == block[|hs|];
    forall k | 0 <= k < |hs| ensures scan.parsed[k] == hs[k] {
      assert lines[k] == block[k];
    }
  }

  /** A two-line header block: traversing the list after parsing visits
      the later header first, then what the list held before. */
  lemma LaterHeaderFirst(first: string, second: string, blank: string, h1: Header, h2: Header,
                         list: seq<HeaderNode>, lex: Lexicon)
    requires |first| > 2 && HeaderLine(first, lex) == Ok(h1)
    requires |second| > 2 && HeaderLine(second, lex) == Ok(h2)
    requires |blank| <= 2
    ensures Prepended(ScanHeaders([first, second, blank], lex).parsed, list) == [Entry(h2), Entry(h1)] + list
  {
    var block := [first, second, blank];
    assert block[1..] == [second, blank] && block[1..][1..] == [blank];
    assert ScanHeaders(block[1..][1..], lex).parsed == [];
    assert ScanHeaders(block[1..], lex).parsed == [h2];
    var hs := [h1, h2];
    assert ScanHeaders(block, lex).parsed == hs;
    assert hs[1..] == [h2] && hs[1..][1..] == [];
    assert Prepended(hs, list) == Prepended([h2], [Entry(h1)] + list);
    assert [Entry(h2)] + ([Entry(h1)] + list) == [Entry(h2), Entry(h1)] + list;
  }

  /** Whether parse_request returns 0 for a client that sends `input` to a
      request whose header list is `headers` beforehand: the request line
      parses and the header loop ends without a malformed line with a
      non-empty list. */
  predicate Parses(input: seq<string>, headers: seq<HeaderNode>, lex: Lexicon) {
    && LineOf(input, lex.whitespace).Line?
    && var scan := ScanHeaders(input[1..], lex);
    && !scan.malformed
    && (scan.parsed != [] || headers != [])
  }

  /** The "no headers" failure needs an empty list: with the sentinel node
      in place a request whose header block is blank at once parses, and
      it fails only when the sentinel is missing. */
  lemma BlankHeaderBlock(input: seq<string>, lex: Lexicon)
    requires LineOf(input, lex.whitespace).Line?
    requires |input| >= 2 && |input[1]| <= 2
    ensures Parses(input, [Sentinel], lex)
    ensures !Parses(input, [], lex)
  {
    assert input[1..][0] == input[1];
  }

  /** The OS resources that are released: closing the client stream or
      closing the raw descriptor. */
  datatype Release = Close(fd: int) | FClose(fd: int)

  /** The part of the operating system the request code acts on: the log of
      release calls it has made. */
  class Kernel {
    var released: seq<Release>

    constructor ()
      ensures released == []
    {
      released := [];
    }
  }

  /** The request record (struct request). */
  class Request {
    var fd: int
    var stream: bool            // the stream over fd was opened
    var host: string
    var port: string
    var httpMethod: Option<string>  // None is a NULL pointer
    var uri: Option<string>
    var query: Option<string>
    var path: Option<string>
    var headers: seq<HeaderNode>
    var input: seq<string>      // lines the client sent that are still unread
    var output: string          // everything written to the client stream

    /** calloc: every field zero. */
    constructor Zeroed()
      ensures fd == 0 && !stream && host == [] && port == []
      ensures httpMethod.None? && uri.None? && query.None? && path.None?
      ensures headers == [] && input == [] && output == []
    {
      fd, stream, host, port := 0, false, [], [];
      httpMethod, uri, query, path := None, None, None, None;
      headers, input, output := [], [], [];
    }

    /** parse_request_method: read one line and cut the method, uri and
        query out of it. The method is recorded as soon as it is found. */
    method ParseRequestMethod(lex: Lexicon) returns (rc: int)
      modifies this`input, this`httpMethod, this`uri, this`query
      ensures rc == 0 || rc == -1
      ensures rc == 0 <==> LineOf(old(input), lex.whitespace).Line?
      ensures input == if old(input) == [] then [] else old(input)[1..]
      ensures var p := LineOf(old(input), lex.whitespace);
              httpMethod == if p.Unreadable? || p.NoMethod? then old(httpMethod) else Some(p.httpMethod)
      ensures var p := LineOf(old(input), lex.whitespace);
              uri == (if p.Line? then Some(p.uri) else old(uri))
              && query == (if p.Line? then Some(p.query) else old(query))
    {
      if input == [] {
        return -1;
      }
      var buffer := input[0];
      input := input[1..];
      var m := Strtok(buffer, lex.whitespace);
      if m.None? {
        return -1;
      }
      httpMethod := Some(Text(buffer, m.value));
      var afterMethod := Rest(buffer, m.value);
      var t := Strtok(afterMethod, lex.whitespace);
      if t.None? {
        return -1;
      }
      var target := Text(afterMethod, t.value);
      var u := Strtok(target, {'?'});
      if u.None? {
        return -1;
      }
      var afterUri := Rest(target, u.value);
      var q := Strtok(afterUri, lex.whitespace);
      uri := Some(Text(target, u.value));
      query := Some(if q.None? then "" else Text(afterUri, q.value));
      rc := 0;
    }

    /** One turn of the header loop: read a line (Stop when none can be
        read); Stop at a line of two characters or fewer; Fail at a line
        that is not a header; otherwise the header it holds. */
    method NextHeader(lex: Lexicon) returns (step: HeaderStep)
      modifies this`input
      ensures input == if old(input) == [] then [] else old(input)[1..]
      ensures var scan := ScanHeaders(old(input), lex);
              match step
              case Stop => scan == HeaderScan([], |old(input)| - |input|, false)
              case Fail => scan == HeaderScan([], 1, true)
              case Read(h) =>
                var rest := ScanHeaders(input, lex);
                scan == HeaderScan([h] + rest.parsed, 1 + rest.consumed, rest.malformed)
    {
      if input == [] {
        return Stop;
      }
      var buffer := input[0];
      input := input[1..];
      if |buffer| <= 2 {
        return Stop;
      }
      var h := HeaderLine(buffer, lex);
      if h.Err? {
        return Fail;
      }
      step := Read(h.value);
    }

    /** parse_request_headers: prepend one node per header line until a
        line cannot be read or is at most two characters long; a malformed
        line fails at once (the nodes prepended so far stay), and so does
        ending with an empty list. */
    method ParseRequestHeaders(lex: Lexicon) returns (rc: int)
      modifies this`input, this`headers
      ensures rc == 0 || rc == -1
      ensures var scan := ScanHeaders(old(input), lex);
              input == old(input)[scan.consumed..]
              && headers == Prepended(scan.parsed, old(headers))
              && (rc == 0 <==> !scan.malformed && headers != [])
    {
      ghost var lines := input;
      ghost var k := 0;
      while true
        invariant k <= |lines| && input == lines[k..]
        invariant var all, s := ScanHeaders(lines, lex), ScanHeaders(input, lex);
                  && all.consumed == k + s.consumed && all.malformed == s.malformed
                  && Prepended(all.parsed, old(headers)) == Prepended(s.parsed, headers)
        decreases |input|
      {
        var step := NextHeader(lex);
        if step.Stop? {
          break;
        }
        if step.Fail? {
          return -1;
        }
        ghost var rest := ScanHeaders(input, lex).parsed;
        assert ([step.header] + rest)[1..] == rest;
        headers := [Entry(step.header)] + headers;
        k := k + 1;
      }
      rc := if headers == [] then -1 else 0;
    }

    /** parse_request: the request line first; the headers only when it
        parsed. */
    method ParseRequest(lex: Lexicon) returns (rc: int)
      modifies this`input, this`httpMethod, this`uri, this`query, this`headers
      ensures rc == 0 || rc == -1
      ensures rc == 0 <==> Parses(old(input), old(headers), lex)
      ensures !LineOf(old(input), lex.whitespace).Line? ==>
                headers == old(headers) && input == (if old(input) == [] then [] else old(input)[1..])
      ensures LineOf(old(input), lex.whitespace).Line? ==>
                var scan := ScanHeaders(old(input)[1..], lex);
                headers == Prepended(scan.parsed, old(headers)) && input == old(input)[1 + scan.consumed..]
      ensures var p := LineOf(old(input), lex.whitespace);
              httpMethod == (if p.Unreadable? || p.NoMethod? then old(httpMethod) else Some(p.httpMethod))
              && uri == (if p.Line? then Some(p.uri) else old(uri))
              && query == (if p.Line? then Some(p.query) else old(query))
    {
      rc := ParseRequestMethod(lex);
      if rc != 0 {
        return -1;
      }
      ghost var lines := input;
      ghost var scan := ScanHeaders(lines, lex);
      PrependedLength(scan.parsed, headers);
      rc := ParseRequestHeaders(lex);
      DropDrop(old(input), 1, scan.consumed);
    }
  }

  /** free_request: nothing for NULL; otherwise close the stream when there
      is one and the raw descriptor when there is not, free the strings,
      and walk the header list freeing every node. */
  method FreeRequest(r: Request?, kernel: Kernel)
    modifies r, kernel
    ensures r == null ==> kernel.released == old(kernel.released)
    ensures r != null ==>
              kernel.released == old(kernel.released) + [if old(r.stream) then FClose(old(r.fd)) else Close(old(r.fd))]
    ensures r != null ==> r.headers == [] && r.httpMethod.None? && r.uri.None? && r.query.None? && r.path.None?
  {
    if r == null {
      return;
    }
    if r.stream {
      kernel.released := kernel.released + [FClose(r.fd)];
    } else {
      kernel.released := kernel.released + [Close(r.fd)];
    }
    r.httpMethod, r.uri, r.path, r.query := None, None, None, None;
    while r.headers != []
      modifies r`headers
      decreases |r.headers|
    {
      r.headers := r.headers[1..];
    }
  }

  /** accept_request with the outcomes of the calls it makes given as
      parameters: whether calloc gives the record and the sentinel node,
      what accept returns, what the reverse lookup finds (a failure when the
      peer has no name), whether fdopen opens the stream, and the lines the
      client will send. Every failure releases the descriptor exactly once,
      through free_request. */
  method AcceptRequest(kernel: Kernel, recordAllocated: bool, sentinelAllocated: bool, accepted: int,
                       peer: Option<(string, string)>, streamOpened: bool, lines: seq<string>)
    returns (r: Request?)
    modifies kernel
    ensures r != null <==> recordAllocated && accepted >= 0 && peer.Some? && streamOpened
    ensures r != null ==> fresh(r) && r.fd == accepted && r.stream && (r.host, r.port) == peer.value
    ensures r != null ==> r.headers == (if sentinelAllocated then [Sentinel] else []) && r.input == lines
    ensures r != null ==> r.output == [] && r.httpMethod.None? && r.uri.None? && r.query.None? && r.path.None?
    ensures r != null || !recordAllocated ==> kernel.released == old(kernel.released)
    ensures r == null && recordAllocated ==> kernel.released == old(kernel.released) + [Close(accepted)]
  {
    if !recordAllocated {
      FreeRequest(null, kernel);
      return null;
    }
    r := new Request.Zeroed();
    if sentinelAllocated {
      r.headers := [Sentinel];
    }
    r.fd := accepted;
    if r.fd < 0 || peer.None? || !streamOpened {
      FreeRequest(r, kernel);
      return null;
    }
    r.host, r.port := peer.value.0, peer.value.1;
    r.stream := true;
    r.input := lines;
  }

  /** accept_request as written: when fdopen fails the descriptor is closed
      on the spot and then closed again by free_request, which sees no
      stream. */
  method AcceptRequestAsWritten(kernel: Kernel, recordAllocated: bool, sentinelAllocated: bool, accepted: int,
                                peer: Option<(string, string)>, streamOpened: bool, lines: seq<string>)
    returns (r: Request?)
    modifies kernel
    ensures r != null <==> recordAllocated && accepted >= 0 && peer.Some? && streamOpened
    ensures r != null ==> fresh(r) && r.fd == accepted && r.stream && (r.host, r.port) == peer.value
    ensures r != null || !recordAllocated ==> kernel.released == old(kernel.released)
    ensures recordAllocated && (accepted < 0 || peer.None?) ==> kernel.released == old(kernel.released) + [Close(accepted)]
    ensures recordAllocated && accepted >= 0 && peer.Some? && !streamOpened ==>
              kernel.released == old(kernel.released) + [Close(accepted), Close(accepted)]
  {
    if !recordAllocated {
      FreeRequest(null, kernel);
      return null;
    }
    r := new Request.Zeroed();
    if sentinelAllocated {
      r.headers := [Sentinel];
    }
    r.fd := accepted;
    if r.fd < 0 || peer.None? {
      FreeRequest(r, kernel);
      return null;
    }
    r.host, r.port := peer.value.0, peer.value.1;
    if !streamOpened {
      kernel.released := kernel.released + [Close(r.fd)];
      FreeRequest(r, kernel);
      return null;
    }
    r.stream := true;
    r.input := lines;
  }
}
