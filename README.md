# spidey in Dafny

A model of the core of **spidey**, a small HTTP/1.0 server written in C. The
model covers three source files, each in its own module:

- **Requests** (`src/request.c`) covers:
  - accepting a client into a request record;
  - parsing the request line (method, uri, query) and the header block;
  - releasing the record.

  The client's stream is the sequence of lines that successive `fgets` calls
  would return. The header list is a sequence of nodes: the zero-filled
  sentinel that `accept_request` allocates, followed by parsed headers that
  are prepended in front. `strtok` is modelled by position (`Span`, `Text`,
  `Rest`), including its skipping of leading delimiters. That is why a target
  such as `?a?b` yields uri `a`.
- **Handlers** (`src/handler.c`) covers:
  - `handle_request`, which parses, resolves the path and dispatches on what
    `stat`/`access` report;
  - the directory listing;
  - the file copy through a `BUFSIZ` buffer;
  - the CGI environment, where `setenv` is an update of a map held by an
    `Environment` object;
  - the error page.

  Everything sent to the client is appended to the request's `output`. What
  the operating system answers for a path is a `Target` value given as a
  parameter.
- **Spidey** (`src/spidey.c`) covers:
  - the configuration globals with their defaults;
  - the argv scanner `parse_options`, as a loop over an `Options` object,
    proved equal to the recursive specification `Scan`;
  - the start-up sequence of `main`.

Shared string scans live in **Strings**.

Several helpers are not part of this model: `determine_request_path`,
`determine_mimetype`, `socket_listen`, `realpath`, `chomp`, `skip_whitespace`
and the `WHITESPACE` macro. They enter as parameters (`Lexicon`, `resolve`,
`world`, `listen`, `realpath`). `http_status_string` is not part of this model
either. It is replaced by the fixed table `Handlers.StatusString`, which
assumes the code and reason phrase of section 6.1.1 of RFC 1945 (for example
`200 OK`).

### Where the header check misses its intent

The `!r->headers` test at src/request.c:284 is evidently meant to reject a
request whose header block is blank at once (zero headers). It rejects only a
request whose header list is empty afterwards. `accept_request` puts a
zero-filled sentinel node in that list, so such a request parses whenever the
sentinel was allocated. The model follows the code, and
`Requests.BlankHeaderBlock` states both cases.

## Model

| member | source | states |
|---|---|---|
| Strings.SkipIn | src/request.c:271 | The skip stops at the first character outside the class, having passed only characters of the class. |
| Strings.SkipOut | src/request.c:265 | The scan stops at the first delimiter (strchr's hit), or at the end when there is none. |
| Strings.Strtok | src/request.c:177 | strtok gives NULL exactly when the string is all delimiters. Otherwise the token follows only delimiters, holds none, and ends at a delimiter or at the end. |
| Strings.StrtokAt | src/request.c:177-189 | On delimiters + token + delimited tail, strtok returns that token, and the next call resumes after the delimiter. |
| Strings.StrtokWhole | src/request.c:195-198 | A string with no delimiter is one whole token, and nothing follows it. |
| Requests.Prepended | src/request.c:277-281 | Definition of the list after parsing: each header, in arrival order, becomes a node put in front of the list. |
| Requests.PrependedLength | src/request.c:277-281 | Each parsed header adds exactly one node to the list. |
| Requests.PrependedOrder | src/request.c:280-281 | Walking the list visits the new headers in reverse arrival order, then the nodes that were there before. |
| Requests.LineOf | src/request.c:170-174 | Definition of the request-line phase on the stream: Unreadable when no line can be read (fgets gives NULL), otherwise the parse of the first line. |
| Requests.RequestLineOf | src/request.c:176-189 | The line has no method exactly when it is all whitespace. A line that was read is never "unreadable". |
| Requests.UriAndQuery | src/request.c:195-199 | No uri exactly when the target is all '?'. Otherwise the uri is non-empty and '?'-free, and the query is whitespace-free. |
| Requests.RequestLineTokens | src/request.c:177-218 | A parsed request line has a non-empty, whitespace-free method, a non-empty '?'-free uri and a whitespace-free query. |
| Requests.SplitQuery | src/request.c:191-199 | The reference cut of a target at its first '?': target == uri + "?" + query, with no '?' in the uri, and query "" when there is no '?'. |
| Requests.RequestLineSplit | src/request.c:164-227 | For `<METHOD> <TARGET>...` with the target not starting with '?', the parse gives the method and SplitQuery of the target, whatever follows. |
| Requests.QueryCut | src/request.c:195-199 | strtok("?") followed by strtok(NULL, WHITESPACE) cuts the target exactly as SplitQuery does. |
| Requests.HeaderLine | src/request.c:264-279 | Refused for a missing ':' exactly when the chomped line has no ':'. Refused for a missing name exactly when it is all ':'. Otherwise the name is non-empty and ':'-free. |
| Requests.HeaderLineSplit | src/request.c:264-279 | `<NAME>:<spaces><VALUE>` gives that name and that value, including any ':' inside the value. |
| Requests.HeaderNameAt | src/request.c:265-272 | The first ':' ends the name, and strtok(":") returns exactly the name. |
| Requests.HeaderValueAt | src/request.c:270-271 | skip_whitespace after the ':' lands on the first character of the value. |
| Requests.ScanHeaders | src/request.c:263-282 | The loop parses no more headers than it reads lines, and reads no more lines than exist. |
| Requests.ScanHeadersReads | src/request.c:263-282 | The loop reads exactly the leading well-formed lines longer than two characters, in arrival order. It then stops at the end of input, at a short line or at a malformed line (the malformed flag is set exactly then). |
| Requests.HeaderBlockParsed | src/request.c:263-282 | A block of header lines closed by a short line yields its headers in order and consumes exactly the block. |
| Requests.LaterHeaderFirst | src/request.c:277-281 | With two header lines, the later header is first in the list, then the earlier one, then the old list. |
| Requests.Parses | src/request.c:131-145 | Definition of when parse_request returns 0: the request line parses, the header loop meets no malformed line, and the list is non-empty afterwards (src/request.c:284-285). |
| Requests.BlankHeaderBlock | src/request.c:284-285 | A blank header block parses when the sentinel node is present and fails when the list is empty. |
| Requests.Request.Zeroed | src/request.c:37 | calloc leaves every field of the record zero or NULL. |
| Requests.Request.ParseRequestMethod | src/request.c:164-227 | Consumes one line. Returns 0 exactly when the line parses. The method is recorded once found, even if the uri is missing. uri and query are set only on success. |
| Requests.Request.NextHeader | src/request.c:263-275 | One loop turn: it stops at end of input or at a short line, fails at a malformed line, or reads the header that ScanHeaders reads first. |
| Requests.Request.ParseRequestHeaders | src/request.c:256-296 | Consumes the lines ScanHeaders reads and prepends its headers. Returns 0 exactly when no line was malformed and the list is non-empty. |
| Requests.Request.ParseRequest | src/request.c:131-145 | Returns 0 exactly when Parses holds. On a request-line failure the headers are untouched; otherwise the header phase runs on the rest of the stream. |
| Requests.FreeRequest | src/request.c:92-120 | NULL releases nothing. Otherwise it closes the stream if there is one and the raw descriptor if not, exactly once, and clears the strings and the header list. |
| Requests.AcceptRequest | src/request.c:31-78 | A record is returned exactly when allocation, accept, lookup and fdopen all succeed. Every failure after allocation closes the descriptor exactly once. |
| Requests.AcceptRequestAsWritten | src/request.c:62-67 | When fdopen fails, the descriptor is closed twice. |
| Handlers.Dispatch | src/handler.c:51-72 | CGI exactly for an executable regular file. File exactly for a readable, non-executable one. Browse exactly for a directory. NOT_FOUND otherwise. |
| Handlers.DispatchAsWritten | src/handler.c:51-64 | Definition of the decision chain as written. A regular file without execute and read permission gets no route (None), which is the unassigned result. |
| Handlers.DispatchCorrectsUnassigned | src/handler.c:55-64 | The chain as written leaves the result unassigned exactly for a regular file that is neither executable nor readable, and agrees with Dispatch everywhere else. |
| Handlers.UnassignedWitness | src/handler.c:55-64 | A regular file with mode 0000 falls through every branch as written. |
| Handlers.ErrorPage | src/handler.c:262-271 | Definition of the error page: the status line, the text/html content type, the blank line, then the HTML page naming the status. |
| Handlers.HandleError | src/handler.c:258-276 | Returns the status it was given and appends the error page for that status. |
| Handlers.Visible | src/handler.c:107-108 | Definition of the entries listed: scandir's entries in order, without ".". |
| Handlers.Href | src/handler.c:109 | Definition of an entry's link: the request uri (empty for the uri "/"), then "/", then the entry name. |
| Handlers.Item | src/handler.c:109 | Definition of one list item: an anchor to Href whose text is the entry name. |
| Handlers.Items | src/handler.c:107-110 | Definition of the items for a sequence of names, one after another, in order. |
| Handlers.VisibleCounts | src/handler.c:107-112 | Every entry except "." is listed as often as scandir returned it, and "." never. |
| Handlers.VisibleKeepsOrder | src/handler.c:95-110 | Entries that are sorted (alphasort) stay sorted once "." is dropped. |
| Handlers.VisibleStep | src/handler.c:107-110 | One more scanned entry adds that entry to the listing unless it is ".". |
| Handlers.ItemsSnoc | src/handler.c:107-110 | The items for names + [n] are the items for names followed by n's item. |
| Handlers.Listing | src/handler.c:101-113 | A listing starts with the 200 status line. |
| Handlers.BrowseReply | src/handler.c:95-118 | Definition of the browse handler's outcome: NOT_FOUND with the error page when scandir fails, otherwise OK with the listing. |
| Handlers.ListEntries | src/handler.c:107-112 | The loop appends one item per entry except ".", in scandir's order. |
| Handlers.HandleBrowse | src/handler.c:89-119 | NOT_FOUND with the error page when scandir fails. Otherwise OK, with the header, the visible items and the footer. |
| Handlers.FileHead | src/handler.c:152-154 | A file response starts with the 200 status line. |
| Handlers.Fread | src/handler.c:158 | fread fills the buffer with the next min(BUFSIZ, remaining) bytes of the file. |
| Handlers.FileReply | src/handler.c:140-168 | Definition of the file handler's outcome: NOT_FOUND with the error page when fopen fails, otherwise OK with the header followed by the file's bytes. |
| Handlers.HandleFile | src/handler.c:132-168 | NOT_FOUND when fopen fails. Otherwise OK, and the header followed by exactly the file's bytes, in order. |
| Handlers.FixedVariables | src/handler.c:198-213 | Definition of the eight setenv calls, in order and with overwrite: DOCUMENT_ROOT, QUERY_STRING, REMOTE_ADDR, REMOTE_PORT, REQUEST_METHOD, REQUEST_URI, SCRIPT_FILENAME, SERVER_PORT. |
| Handlers.HeaderVariable | src/handler.c:217-228 | Definition of the allow-list: the six header names, compared exactly (case-sensitively), and the HTTP_ variable each one sets; None for every other name. |
| Handlers.ExportHeaders | src/handler.c:216-230 | Definition of the header loop: walk from the head of the list until a sentinel or the end, setting (with overwrite) the variable of each allow-listed header. |
| Handlers.ExportHeadersSets | src/handler.c:216-230 | The loop sets only the six HTTP_ variables. Each one gets the value of the last visited header of its name, or keeps its old value when there is none. |
| Handlers.LastVisitedIsFirstArrived | src/handler.c:216-229 | On the prepended list, the last header visited with a name is the earliest to arrive, unless the older list already holds one. |
| Handlers.EarliestDuplicateWins | src/handler.c:216-230 | With duplicate allow-listed headers, the variable gets the value of the header that arrived first. |
| Handlers.HeaderFree | src/handler.c:216-230 | A variable outside the six HTTP_ ones keeps its value across the header loop. |
| Handlers.FixedVariablesKept | src/handler.c:198-230 | After the header loop, the eight fixed CGI variables still hold root, query, host, port, method, uri, path and server port, whatever the headers. |
| Handlers.ExportRequestHeaders | src/handler.c:216-230 | The six-test loop has exactly the effect of ExportHeaders on the environment. |
| Handlers.CgiReply | src/handler.c:232-246 | Definition of the CGI handler's outcome: INTERNAL_SERVER_ERROR with the error page when popen fails, otherwise OK with the script's output. |
| Handlers.HandleCgi | src/handler.c:190-247 | The environment gains the eight fixed variables and then the exported headers. INTERNAL_SERVER_ERROR when popen fails, otherwise OK and the script's output. |
| Handlers.Reply | src/handler.c:51-72 | Definition of the outcome of the route Dispatch picks: the CGI, file or browse handler's reply, or NOT_FOUND with the error page. |
| Handlers.ReplyOpensWithStatus | src/handler.c:89-276 | Every response the server writes itself opens with the status line of the status it returns. |
| Handlers.Respond | src/handler.c:50-72 | Runs the handler Dispatch picks. The environment changes only for CGI. |
| Handlers.Answered | src/handler.c:42-75 | Definition of the outcome for a parsed request. NOT_FOUND when the uri does not resolve. Otherwise the reply of the handler Dispatch picks, with the environment extended by the fixed variables and the headers only for CGI. |
| Handlers.Serve | src/handler.c:42-75 | Records the resolved path. NOT_FOUND when the uri does not resolve; otherwise the answer of the dispatched handler. |
| Handlers.HandleRequest | src/handler.c:31-76 | BAD_REQUEST with the error page, and nothing resolved or exported, exactly when parsing fails. Otherwise the request line's method, uri and query, the parsed headers in front of the list the request arrived with, and the Answered outcome for that request. The peer's host and port stay as accepted. |
| Spidey.ScanOutcomes | src/spidey.c:47-86 | parse_options returns only true. It exits with success only after a `-h`, and crashes only when the last argument is `-c`. |
| Spidey.ScanNeverUnknown | src/spidey.c:52-63 | No option selects the UNKNOWN mode. |
| Spidey.Scan | src/spidey.c:47-86 | Definition of parse_options over argv from position i: the loop condition, the second-character switch, `-c` with its two accepted modes, `-h`, the four value-taking options and the failure default. |
| Spidey.Visited | src/spidey.c:49-50 | The scan reads argv[k] as an option, not as an option's value. Which positions are visited depends on the arguments alone. |
| Spidey.UnnamedSettingKept | src/spidey.c:67-78 | A setting that no option visited from position i on names keeps its value. Option values are never read as options. |
| Spidey.LastOccurrenceWins | src/spidey.c:67-78 | When the scan visits an option at k and no later option of the same letter, the setting ends as the argument after k (NULL when k is last), however the scan ends. |
| Spidey.PortRepeated | src/spidey.c:73-75 | `-p 1 -r x -p 2` sets the port to "2". |
| Spidey.FlagIsSecondChar | src/spidey.c:49-51 | Only the second character selects the option: `-pfoo` behaves as `-p`. |
| Spidey.ScanTail | src/spidey.c:49-83 | The scan from position i reads only the arguments from i on. |
| Spidey.Options.constructor | src/spidey.c:13-16 | The defaults are port 9898, /etc/mime.types, text/plain, root www and mode SINGLE. |
| Spidey.Options.ParseOptions | src/spidey.c:47-86 | The argv loop ends as Scan ends and leaves the globals as Scan does. |
| Spidey.Launched | src/spidey.c:91-135 | Definition of main's outcome: the scan's exit or crash; EXIT_FAILURE when listening fails; otherwise the server the mode names, with the root replaced by realpath's result. UNKNOWN gives EXIT_FAILURE. |
| Spidey.Startup | src/spidey.c:91-135 | main's steps produce exactly the Launched outcome. |
| Spidey.DefaultLaunch | src/spidey.c:13-16 | With no arguments, the single server runs on port 9898 with the default settings and the resolved www root. |
| Spidey.LaunchReasons | src/spidey.c:96-131 | main exits only when the scan exits or listening fails, never through the UNKNOWN branch. It crashes exactly when the scan does. |

## Left out

- Sockets, `fgets`/`fprintf`/`fflush` on the client stream, logging and debug output. The stream is a list of lines in and a string out.
- `fgets` splitting lines longer than `BUFSIZ`, NUL bytes inside a line, and bytes as C `char`s. Characters are Dafny `char`s.
- Requests.Request.ParseRequestMethod: the fallback branch for a target made only of '?' (src/request.c:199-211) is not modelled. The model stops with a parse failure there, because it relies on `skip_nonwhitespace` over a buffer that strtok has already cut.
- The header walk of `handle_cgi_request` stops at the first sentinel or at the end of the list. A list without a sentinel makes the C code dereference NULL, and that is not modelled.
- `setenv` failures (only logged), `strdup`/`malloc` failures in the parser, and memory freeing, which is modelled only by the cleared fields and the release log.
- `popen`/`pclose` and the line-by-line copy of the script's output. A started script's whole output is one parameter.
- Handlers.CgiReply: when `popen` fails, the code calls `pclose(NULL)` at src/handler.c:234 before `handle_error`. POSIX leaves that call undefined, and common C libraries dereference the pointer, so the process most likely crashes there. The model does not capture that crash. It gives the INTERNAL_SERVER_ERROR reply that the comment at src/handler.c:187-188 promises. The same applies to Handlers.HandleCgi, which returns CgiReply.
- Handlers.HandleFile: the `fwrite` failure path (src/handler.c:159-175) is not modelled, because a negative count cannot come from `fwrite`'s unsigned result.
- `forking_server` and `single_server`, and the test driver. The model ends with which server starts and on which settings.
- `determine_request_path`, `determine_mimetype`, `realpath`, `socket_listen`, `stat`, `access`, `scandir` and `fopen` are not part of this model. They are parameters or `Target` fields.
- `http_status_string` is not part of this model. `StatusString` assumes it returns the RFC 1945 code and reason phrase. `ReplyOpensWithStatus` relies on that assumption where it equates `StatusLine(OK)` with the hard-coded `HTTP/1.0 200 OK` lines at src/handler.c:101 and src/handler.c:152.
- `usage`'s message text. Only its exit status is modelled.

## Findings

| source | as written | input that shows it | evidently intended | confidence | as-written member | corrected member |
|---|---|---|---|---|---|---|
| src/request.c:62-67 | when `fdopen` fails, the descriptor is closed at line 65, and `free_request` closes it again because no stream was set | accept and the lookup succeed, then `fdopen` fails | the descriptor is closed exactly once | not executed | Requests.AcceptRequestAsWritten | Requests.AcceptRequest |
| src/handler.c:55-64 | a regular file that is neither executable nor readable takes no branch, and `result` is returned uninitialised | a regular file with mode 0000 | answer NOT_FOUND like every other unservable path | not executed | Handlers.UnassignedWitness | Handlers.DispatchCorrectsUnassigned |
