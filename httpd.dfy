/**
 * The request handling of the asynchronous HTTP server
 * (W5_HTTP_Server/httpd.py): how the path of a request line becomes a file
 * name under the document root, which status a request gets, and the chunks
 * the handler writes back before closing the connection.
 *
 * The file system (is it a file, its size, its bytes, its MIME type), the
 * clock and percent-decoding are parameters. The header lookup result is an
 * `Option`: the parsed header block gives `None` for a missing header.
 */
module Httpd {
  import opened Wrappers
  import opened Text
  import opened Paths

  const IndexFile: String := "index.html"
  const Crlf: String := "\r\n"

  // ---------------------------------------------------------------------
  // From request path to file name
  // ---------------------------------------------------------------------

  /** The decoded path up to its first `?`, with `index.html` added to a
    * path naming a directory. */
  function RequestFile(path: String, unquote: String -> String): String
  {
    var p := BeforeFirst(unquote(path), '?');
    if EndsWith(p, "/") then p + IndexFile else p
  }

  /** `parse_path`: the document root joined with every `/`-separated
    * component of the request file, `..` included. */
  function ParsePath(path: String, unquote: String -> String, root: String): String
  {
    PyJoinAll(root, Split(RequestFile(path, unquote), '/'))
  }

  /** An absolute request file whose components are all non-empty lands at
    * the document root followed by the request file itself: nothing is
    * dropped or normalised, so a `..` component stays in the name. */
  lemma {:induction false} ParsePathUnderRoot(path: String, unquote: String -> String, root: String)
    requires root != [] && root[|root| - 1] != '/'
    requires StartsWith(RequestFile(path, unquote), "/")
    requires forall k :: 0 <= k < |Split(RequestFile(path, unquote)[1..], '/')| ==> Split(RequestFile(path, unquote)[1..], '/')[k] != []
    ensures ParsePath(path, unquote, root) == root + RequestFile(path, unquote)
  {
    JoinOntoRoot(root, RequestFile(path, unquote));
  }

  /** A request for a directory that has no `index.html` file is answered
    * 403: the file name tried ends in `index.html`. */
  lemma {:induction false} DirectoryNameEndsInIndex(path: String, unquote: String -> String, root: String)
    requires EndsWith(BeforeFirst(unquote(path), '?'), "/")
    ensures EndsWith(ParsePath(path, unquote, root), IndexFile)
  {
    var p := BeforeFirst(unquote(path), '?');
    var q := p[..|p| - 1];
    assert RequestFile(path, unquote) == q + ['/'] + IndexFile;
    SplitConcat(q, '/', IndexFile);
    SplitNoSep(IndexFile, '/');
    var parts := Split(RequestFile(path, unquote), '/');
    assert parts[|parts| - 1] == IndexFile;
    PyJoinAllEnds(root, parts);
  }

  /** A request for `/../name` (say `/../secret.txt` under `/srv/www`) is
    * answered from the directory above the document root: `parse_path`
    * keeps the `..`. */
  lemma {:induction false} TraversalEscapesRoot(root: String, name: String)
    requires root != [] && root[|root| - 1] != '/'
    requires name != [] && '/' !in name && '?' !in name
    ensures ParsePath("/../" + name, s => s, root) == root + "/../" + name
  {
    var f := "/../" + name;
    assert f[1..] == ".." + ['/'] + name;
    assert f == "/.." + ['/'] + name;
    BeforeFirstWithout(f, '?');
    assert f[|f| - 1] == name[|name| - 1];
    assert RequestFile(f, s => s) == f;
    SplitConcat("..", '/', name);
    SplitNoSep("..", '/');
    SplitNoSep(name, '/');
    JoinOntoRoot(root, f);
  }

  /** The path as evidently intended: only plain components are joined onto
    * the document root; empty, `.` and `..` components are dropped. */
  function ParsePathConfined(path: String, unquote: String -> String, root: String): String
  {
    PyJoinAll(root, PlainOnly(Split(RequestFile(path, unquote), '/')))
  }

  /** The confined name is the document root followed by plain components
    * only, so it never leaves the document root. */
  lemma {:induction false} ConfinedUnderRoot(path: String, unquote: String -> String, root: String)
    requires root != []
    ensures var cs := PlainOnly(Split(RequestFile(path, unquote), '/'));
            && (forall k :: 0 <= k < |cs| ==> Plain(cs[k]) && '/' !in cs[k])
            && ParsePathConfined(path, unquote, root) ==
               if cs == [] then root else root + (if root[|root| - 1] == '/' then "" else "/") + Join(cs, '/')
  {
    var parts := Split(RequestFile(path, unquote), '/');
    var cs := PlainOnly(parts);
    forall k | 0 <= k < |cs| ensures Plain(cs[k]) && '/' !in cs[k] {
      assert cs[k] in parts;
    }
    UnslashedParts(cs);
    PyJoinAllPlain(root, cs);
  }

  /** Keeping only the plain components of an absolute file name whose
    * components are plain already changes nothing. */
  lemma {:induction false} ConfinedOfRooted(root: String, f: String)
    requires root != [] && root[|root| - 1] != '/'
    requires f != [] && f[0] == '/'
    requires forall k :: 0 <= k < |Split(f[1..], '/')| ==> Plain(Split(f[1..], '/')[k])
    ensures PyJoinAll(root, PlainOnly(Split(f, '/'))) == root + f
  {
    var rest := Split(f[1..], '/');
    assert PlainOnly(Split(f, '/')) == rest by {
      assert f == [f[0]] + f[1..];
      SplitCons(f[0], f[1..], '/');
      assert Split(f, '/') == [[]] + rest;
      PlainOnlyOfPlain(rest);
    }
    assert PyJoinAll(root, rest) == root + "/" + f[1..] by {
      UnslashedParts(rest);
      PyJoinAllPlain(root, rest);
      JoinSplit(f[1..], '/');
    }
    assert f == "/" + f[1..];
    Assoc(root, "/", f[1..]);
  }

  /** For an ordinary request (absolute, no empty, `.` or `..` component) the
    * confined name is the name `parse_path` builds. */
  lemma {:induction false} ConfinedAgrees(path: String, unquote: String -> String, root: String)
    requires root != [] && root[|root| - 1] != '/'
    requires StartsWith(RequestFile(path, unquote), "/")
    requires forall k :: 0 <= k < |Split(RequestFile(path, unquote)[1..], '/')| ==> Plain(Split(RequestFile(path, unquote)[1..], '/')[k])
    ensures ParsePathConfined(path, unquote, root) == ParsePath(path, unquote, root) == root + RequestFile(path, unquote)
  {
    var f := RequestFile(path, unquote);
    ConfinedOfRooted(root, f);
    ParsePathUnderRoot(path, unquote, root);
  }

  // ---------------------------------------------------------------------
  // The request line
  // ---------------------------------------------------------------------

  /** The second space-separated token of the request line, or `''`. */
  function RequestPath(line: String): String
  {
    var parts := Split(line, ' ');
    if |parts| >= 2 then parts[1] else ""
  }

  /** The first space-separated token of the request line; there always is one. */
  function RequestMethod(line: String): String
  {
    Split(line, ' ')[0]
  }

  /** `METHOD PATH VERSION` gives back its method and its path. */
  lemma {:induction false} RequestLineParts(m: String, p: String, v: String)
    requires ' ' !in m && ' ' !in p
    ensures RequestMethod(m + " " + p + " " + v) == m
    ensures RequestPath(m + " " + p + " " + v) == p
  {
    assert m + " " + p + " " + v == m + [' '] + (p + [' '] + v);
    SplitAfterPiece(m, ' ', p + [' '] + v);
    SplitAfterPiece(p, ' ', v);
  }

  /** A request line without a space is all method, and its path is empty. */
  lemma {:induction false} RequestLineWithoutSpace(line: String)
    requires ' ' !in line
    ensures RequestMethod(line) == line && RequestPath(line) == ""
  {
    SplitNoSep(line, ' ');
  }

  // ---------------------------------------------------------------------
  // Status and reply
  // ---------------------------------------------------------------------

  /** What the server can learn about a file name. */
  datatype FileSystem = FileSystem(
    isFile: String -> bool,
    size: String -> nat,
    content: String -> String,
    contentType: String -> Option<String>)

  datatype Status = Ok | Forbidden | NotFound | NotAllowed

  /** The status chosen in `handle_connection`. */
  function Decide(verb: String, parsedPath: String, fs: FileSystem): Status
  {
    if verb == "GET" || verb == "HEAD" then
      if fs.isFile(parsedPath) then Ok
      else if EndsWith(parsedPath, IndexFile) then Forbidden
      else NotFound
    else NotAllowed
  }

  function StatusLine(s: Status): String
  {
    match s
    case Ok => "HTTP/1.1 200 OK\r\n"
    case Forbidden => "HTTP/1.1 403 ERROR\r\n"
    case NotFound => "HTTP/1.1 404 ERROR\r\n"
    case NotAllowed => "HTTP/1.1 405 ERROR\r\n"
  }

  /** `str(x)` of an optional string: `None` when absent. */
  function Str(x: Option<String>): String
  {
    if x.Some? then x.value else "None"
  }

  /** The chunks `create_headers` writes; the long version describes the file. */
  function HeaderLines(parsedPath: String, connection: Option<String>, longVersion: bool, date: String, fs: FileSystem): seq<String>
  {
    ["Server: Asynchronous HTTP Server" + Crlf, "Date: " + date + Crlf, "Connection: " + Str(connection) + Crlf]
    + (if !longVersion then [Crlf] else [])
    + (if longVersion then
         ["Content-Length: " + NatToDecimal(fs.size(parsedPath)) + Crlf,
          "Content-Type: " + Str(fs.contentType(parsedPath)) + Crlf,
          Crlf]
       else [])
  }

  /** Every chunk written for a request with this method and path. */
  function Reply(verb: String, path: String, connection: Option<String>, date: String,
                 root: String, unquote: String -> String, fs: FileSystem): seq<String>
  {
    var p := ParsePath(path, unquote, root);
    var s := Decide(verb, p, fs);
    [StatusLine(s)] + HeaderLines(p, connection, s == Ok, date, fs)
    + (if s == Ok && verb == "GET" then [fs.content(p)] else [])
  }

  /** Every chunk written for a request line. */
  function Response(line: String, connection: Option<String>, date: String,
                    root: String, unquote: String -> String, fs: FileSystem): seq<String>
  {
    Reply(RequestMethod(line), RequestPath(line), connection, date, root, unquote, fs)
  }

  /** A refused request gets its status line, the three common headers and a
    * blank line, and nothing about the file. */
  lemma {:induction false} ErrorReplyShape(verb: String, path: String, connection: Option<String>, date: String,
                        root: String, unquote: String -> String, fs: FileSystem)
    requires Decide(verb, ParsePath(path, unquote, root), fs) != Ok
    ensures var r := Reply(verb, path, connection, date, root, unquote, fs);
            && |r| == 5 && r[0] != "HTTP/1.1 200 OK\r\n"
            && r[3] == "Connection: " + Str(connection) + Crlf && r[4] == Crlf
  {
  }

  /** A file found is answered 200 with its length and type; GET adds the
    * bytes, and the announced length is the number of bytes sent whenever
    * the file system reports sizes truthfully. */
  lemma {:induction false} OkReplyShape(verb: String, path: String, connection: Option<String>, date: String,
                     root: String, unquote: String -> String, fs: FileSystem)
    requires Decide(verb, ParsePath(path, unquote, root), fs) == Ok
    ensures var p := ParsePath(path, unquote, root);
            var r := Reply(verb, path, connection, date, root, unquote, fs);
            && |r| == (if verb == "GET" then 8 else 7)
            && r[0] == "HTTP/1.1 200 OK\r\n"
            && r[4] == "Content-Length: " + NatToDecimal(fs.size(p)) + Crlf
            && r[5] == "Content-Type: " + Str(fs.contentType(p)) + Crlf
            && r[6] == Crlf
            && (verb == "GET" ==> r[7] == fs.content(p))
            && (verb == "GET" && fs.size(p) == |fs.content(p)| ==>
                  DecimalValue(r[4][16..|r[4]| - 2]) == |r[7]|)
  {
    var p := ParsePath(path, unquote, root);
    var r := Reply(verb, path, connection, date, root, unquote, fs);
    var len := NatToDecimal(fs.size(p));
    assert r[4] == "Content-Length: " + len + Crlf;
    assert r[4][16..|r[4]| - 2] == len;
    DecimalOfNatToDecimal(fs.size(p));
  }

  /** HEAD gets exactly what GET gets, less the body. */
  lemma {:induction false} HeadOmitsBody(path: String, connection: Option<String>, date: String,
                      root: String, unquote: String -> String, fs: FileSystem)
    ensures var p := ParsePath(path, unquote, root);
            Reply("GET", path, connection, date, root, unquote, fs)
            == Reply("HEAD", path, connection, date, root, unquote, fs)
               + (if fs.isFile(p) then [fs.content(p)] else [])
  {
  }

  /** Any method but GET and HEAD is answered 405, whatever the path. */
  lemma {:induction false} OtherMethodsNotAllowed(verb: String, path: String, connection: Option<String>, date: String,
                               root: String, unquote: String -> String, fs: FileSystem)
    requires verb != "GET" && verb != "HEAD"
    ensures Reply(verb, path, connection, date, root, unquote, fs)[0] == "HTTP/1.1 405 ERROR\r\n"
  {
  }

  /** GET or HEAD on a directory without an `index.html` file is answered 403. */
  lemma {:induction false} MissingIndexForbidden(verb: String, path: String, connection: Option<String>, date: String,
                              root: String, unquote: String -> String, fs: FileSystem)
    requires verb == "GET" || verb == "HEAD"
    requires EndsWith(BeforeFirst(unquote(path), '?'), "/")
    requires !fs.isFile(ParsePath(path, unquote, root))
    ensures Reply(verb, path, connection, date, root, unquote, fs)[0] == "HTTP/1.1 403 ERROR\r\n"
  {
    DirectoryNameEndsInIndex(path, unquote, root);
  }

  // ---------------------------------------------------------------------
  // The handler
  // ---------------------------------------------------------------------

  /** The stream writer of a connection: the chunks written so far, and
    * whether it is closed. */
  class Writer {
    var written: seq<String>
    var closed: bool

    constructor ()
      ensures written == [] && !closed
    {
      written := [];
      closed := false;
    }

    method Write(chunk: String)
      modifies this
      ensures written == old(written) + [chunk] && closed == old(closed)
    {
      written := written + [chunk];
    }

    method Close()
      modifies this
      ensures closed && written == old(written)
    {
      closed := true;
    }
  }

  /** `create_headers`. */
  method CreateHeaders(writer: Writer, parsedPath: String, connection: Option<String>, longVersion: bool,
                       date: String, fs: FileSystem)
    modifies writer
    ensures writer.written == old(writer.written) + HeaderLines(parsedPath, connection, longVersion, date, fs)
    ensures writer.closed == old(writer.closed)
  {
    writer.Write("Server: Asynchronous HTTP Server" + Crlf);
    writer.Write("Date: " + date + Crlf);
    writer.Write("Connection: " + Str(connection) + Crlf);
    if !longVersion {
      writer.Write(Crlf);
    }
    if longVersion {
      writer.Write("Content-Length: " + NatToDecimal(fs.size(parsedPath)) + Crlf);
      writer.Write("Content-Type: " + Str(fs.contentType(parsedPath)) + Crlf);
      writer.Write(Crlf);
    }
  }

  /** `handle_connection` once the request has been read: it writes the
    * reply for the request line and closes the writer. */
  method HandleConnection(writer: Writer, requestLine: String, connection: Option<String>, date: String,
                          root: String, unquote: String -> String, fs: FileSystem)
    modifies writer
    ensures writer.written == old(writer.written) + Response(requestLine, connection, date, root, unquote, fs)
    ensures writer.closed
  {
    var tokens := Split(requestLine, ' ');
    var path := if |tokens| >= 2 then tokens[1] else "";
    var verb := tokens[0];
    var parsedPath := ParsePath(path, unquote, root);
    ghost var status := Decide(verb, parsedPath, fs);
    ghost var before := writer.written;
    ghost var headers := HeaderLines(parsedPath, connection, status == Ok, date, fs);
    ghost var body: seq<String> := if status == Ok && verb == "GET" then [fs.content(parsedPath)] else [];
    assert Response(requestLine, connection, date, root, unquote, fs) == [StatusLine(status)] + headers + body by {
      assert RequestMethod(requestLine) == verb && RequestPath(requestLine) == path;
    }
    if verb == "GET" || verb == "HEAD" {
      if fs.isFile(parsedPath) {
        assert status == Ok;
        writer.Write("HTTP/1.1 200 OK\r\n");
        CreateHeaders(writer, parsedPath, connection, true, date, fs);
        if verb == "GET" {
          writer.Write(fs.content(parsedPath));
        }
        assert writer.written == before + [StatusLine(status)] + headers + body;
      } else {
        if EndsWith(parsedPath, IndexFile) {
          assert status == Forbidden;
          writer.Write("HTTP/1.1 403 ERROR\r\n");
          CreateHeaders(writer, parsedPath, connection, false, date, fs);
        } else {
          assert status == NotFound;
          writer.Write("HTTP/1.1 404 ERROR\r\n");
          CreateHeaders(writer, parsedPath, connection, false, date, fs);
        }
        assert writer.written == before + [StatusLine(status)] + headers + body;
      }
    } else {
      assert status == NotAllowed;
      writer.Write("HTTP/1.1 405 ERROR\r\n");
      CreateHeaders(writer, parsedPath, connection, false, date, fs);
      assert writer.written == before + [StatusLine(status)] + headers + body;
    }
    AppendAssoc(before, [StatusLine(status)], headers, body);
    writer.Close();
  }

  lemma {:induction false} AppendAssoc<T>(a: seq<T>, b: seq<T>, c: seq<T>, d: seq<T>)
    ensures a + b + c + d == a + (b + c + d)
  {
  }
}
