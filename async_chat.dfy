/**
 * The asynchat-based echo server (W5_HTTP_Server/async_chat.py): the line
 * buffer of `EchoHandler`, the mapping of a request path to a file under the
 * working directory (`translate_path`), and the MIME type chosen for a file
 * name (`guess_type` with its `extensions_map`).
 *
 * Percent-decoding, the working directory and the system MIME table are
 * parameters.
 *
 * The echo handler's data are modelled as str. Under Python 3 the socket
 * delivers bytes while the terminator stays the str "\r\n", so asynchat's
 * `handle_read` fails on `bytes.find(str)` before any handler method runs;
 * that step belongs to asynchat and is not part of this model.
 */
module AsyncChat {
  import opened Wrappers
  import opened Text
  import opened Paths

  const Terminator: String := "\r\n"

  // ---------------------------------------------------------------------
  // The echo handler
  // ---------------------------------------------------------------------

  /** `"".join(chunks)`. */
  function Concat(chunks: seq<String>): String
  {
    if chunks == [] then [] else Concat(chunks[..|chunks| - 1]) + chunks[|chunks| - 1]
  }

  lemma {:induction false} ConcatAppend(chunks: seq<String>, x: String)
    ensures Concat(chunks + [x]) == Concat(chunks) + x
  {
    assert (chunks + [x])[..|chunks|] == chunks;
  }

  /**
   * Python's `fmt % arg` for a single str argument: None when it raises,
   * otherwise the formatted text. The argument must be consumed by exactly
   * one `%s`; a format with no directive raises "not all arguments
   * converted", a second `%s` raises "not enough arguments". `%%` stands for
   * a percent sign; other directives are treated as raising (no format of
   * this server uses one).
   */
  function FormatFrom(fmt: String, arg: String, used: bool): Option<String>
    decreases |fmt|
  {
    if fmt == [] then
      if used then Some([]) else None
    else if fmt[0] == '%' && |fmt| >= 2 && fmt[1] == '%' then
      match FormatFrom(fmt[2..], arg, used)
      case None => None
      case Some(t) => Some("%" + t)
    else if fmt[0] == '%' && |fmt| >= 2 && fmt[1] == 's' && !used then
      match FormatFrom(fmt[2..], arg, true)
      case None => None
      case Some(t) => Some(arg + t)
    else if fmt[0] == '%' then None
    else
      match FormatFrom(fmt[1..], arg, used)
      case None => None
      case Some(t) => Some([fmt[0]] + t)
  }

  function Format(fmt: String, arg: String): Option<String>
  {
    FormatFrom(fmt, arg, false)
  }

  /** Once the argument is used, text without a directive is copied as is. */
  lemma {:induction false} PlainTextCopied(fmt: String, arg: String)
    requires '%' !in fmt
    ensures FormatFrom(fmt, arg, true) == Some(fmt)
  {
    if fmt != [] {
      assert '%' !in fmt[1..] by {
        forall x | x in fmt[1..] ensures x != '%' {
          var j :| 0 <= j < |fmt[1..]| && fmt[1..][j] == x;
          assert fmt[j + 1] == x;
        }
      }
      PlainTextCopied(fmt[1..], arg);
      assert fmt == [fmt[0]] + fmt[1..];
    }
  }

  /** A format without any directive raises TypeError, whatever the argument. */
  lemma {:induction false} NoDirectiveRaises(fmt: String, arg: String)
    requires '%' !in fmt
    ensures Format(fmt, arg) == None
  {
    if fmt != [] {
      assert '%' !in fmt[1..] by {
        forall x | x in fmt[1..] ensures x != '%' {
          var j :| 0 <= j < |fmt[1..]| && fmt[1..][j] == x;
          assert fmt[j + 1] == x;
        }
      }
      NoDirectiveRaises(fmt[1..], arg);
    }
  }

  /** A prefix followed by one `%s` puts the argument after the prefix. */
  lemma {:induction false} OneDirectiveFormats(prefix: String, arg: String)
    requires '%' !in prefix
    ensures Format(prefix + "%s", arg) == Some(prefix + arg)
  {
    var fmt := prefix + "%s";
    if prefix == [] {
      assert fmt == "%s" && fmt[2..] == [];
      assert fmt[0] == '%' && fmt[1] == 's';
      assert FormatFrom(fmt[2..], arg, true) == Some([]);
      assert FormatFrom(fmt, arg, false) == Some(arg + []);
      assert arg + [] == arg && prefix + arg == arg;
    } else {
      assert '%' !in prefix[1..] by {
        forall x | x in prefix[1..] ensures x != '%' {
          var j :| 0 <= j < |prefix[1..]| && prefix[1..][j] == x;
          assert prefix[j + 1] == x;
        }
      }
      OneDirectiveFormats(prefix[1..], arg);
      assert fmt[0] == prefix[0] && fmt[1..] == prefix[1..] + "%s";
      assert prefix == [prefix[0]] + prefix[1..];
      Assoc([prefix[0]], prefix[1..], arg);
    }
  }

  /** The debug messages as written: no directive, so `% data` raises. */
  const CollectLog: String := "collect_incoming_data]"
  const SendLog: String := "sending]"

  /** The debug messages as evidently intended: the data after the label. */
  const CollectLogIntended: String := "collect_incoming_data] %s"
  const SendLogIntended: String := "sending] %s"

  /** As written, both debug messages raise TypeError for every str, the empty one included. */
  lemma AsWrittenLogsRaise(data: String)
    ensures Format(CollectLog, data) == None && Format(SendLog, data) == None
  {
    assert forall k :: 0 <= k < |CollectLog| ==> CollectLog[k] != '%';
    assert forall k :: 0 <= k < |SendLog| ==> SendLog[k] != '%';
    NoDirectiveRaises(CollectLog, data);
    NoDirectiveRaises(SendLog, data);
  }

  /** With a `%s`, both debug messages format: the label, a space and the data. */
  lemma IntendedLogsFormat(data: String)
    ensures Format(CollectLogIntended, data) == Some("collect_incoming_data] " + data)
    ensures Format(SendLogIntended, data) == Some("sending] " + data)
  {
    var c := "collect_incoming_data] ";
    var s := "sending] ";
    assert forall k :: 0 <= k < |c| ==> c[k] != '%';
    assert forall k :: 0 <= k < |s| ==> s[k] != '%';
    assert c + "%s" == CollectLogIntended && s + "%s" == SendLogIntended;
    OneDirectiveFormats(c, data);
    OneDirectiveFormats(s, data);
  }

  /**
   * `EchoHandler`: incoming data are buffered until the line terminator,
   * then the buffered line is pushed back followed by the terminator. Each
   * step first formats its debug message (`collectLog % data`,
   * `sendLog % data`); when that raises, the step stops there.
   * `received` is what the handler took into its buffer so far, terminators
   * included; `pushed` is every chunk handed to `push`, in order.
   */
  class EchoHandler {
    const collectLog: String
    const sendLog: String
    var ibuffer: seq<String>
    var pushed: seq<String>
    ghost var received: String

    /** Nothing taken in is lost or reordered: what was pushed, followed by
      * what is buffered, is exactly what was received. */
    ghost predicate Valid()
      reads this
    {
      Concat(pushed) + Concat(ibuffer) == received
    }

    constructor (collectLog: String, sendLog: String)
      ensures Valid() && ibuffer == [] && pushed == [] && received == []
      ensures this.collectLog == collectLog && this.sendLog == sendLog
    {
      this.collectLog := collectLog;
      this.sendLog := sendLog;
      ibuffer := [];
      pushed := [];
      received := [];
    }

    /** `collect_incoming_data`: the chunk joins the buffer, unless the
      * debug message raises first. */
    method CollectIncomingData(data: String) returns (raised: bool)
      requires Valid()
      modifies this
      ensures Valid()
      ensures raised <==> Format(collectLog, data).None?
      ensures pushed == old(pushed)
      ensures raised ==> ibuffer == old(ibuffer) && received == old(received)
      ensures !raised ==> ibuffer == old(ibuffer) + [data] && received == old(received) + data
    {
      var msg := Format(collectLog, data);
      if msg.None? {
        return true;
      }
      raised := false;
      received := received + data;
      ConcatAppend(ibuffer, data);
      Assoc(Concat(pushed), Concat(ibuffer), data);
      ibuffer := ibuffer + [data];
    }

    /** `found_terminator`: the terminator arrived, the line goes back. */
    method FoundTerminator() returns (raised: bool)
      requires Valid()
      modifies this
      ensures Valid()
      ensures raised <==> Format(sendLog, Concat(old(ibuffer))).None?
      ensures raised ==> ibuffer == old(ibuffer) && pushed == old(pushed) && received == old(received)
      ensures !raised ==> pushed == old(pushed) + [Concat(old(ibuffer)) + Terminator] && ibuffer == []
                          && received == old(received) + Terminator
    {
      ghost var line := Concat(ibuffer);
      ghost var before := Concat(pushed);
      raised := SendData();
      if !raised {
        received := received + Terminator;
        ConcatAppend(old(pushed), line + Terminator);
        Assoc(before, line, Terminator);
      }
    }

    /** `send_data`: join the buffer, format the debug message, push the
      * line and the terminator, then empty the buffer; a raising message
      * stops before the push. */
    method SendData() returns (raised: bool)
      modifies this
      ensures raised <==> Format(sendLog, Concat(old(ibuffer))).None?
      ensures received == old(received)
      ensures raised ==> ibuffer == old(ibuffer) && pushed == old(pushed)
      ensures !raised ==> pushed == old(pushed) + [Concat(old(ibuffer)) + Terminator] && ibuffer == []
    {
      var data := Concat(ibuffer);
      var msg := Format(sendLog, data);
      if msg.None? {
        return true;
      }
      raised := false;
      pushed := pushed + [data + Terminator];
      ibuffer := [];
    }
  }

  /**
   * One line of str data on a fresh connection: asynchat hands the text
   * before the terminator to `collect_incoming_data` (not called for an
   * empty line), then calls `found_terminator`; an exception ends the
   * connection. The result is everything pushed back.
   */
  method EchoLine(collectLog: String, sendLog: String, line: String) returns (echoed: seq<String>)
    ensures (line == [] || Format(collectLog, line).Some?) && Format(sendLog, line).Some?
            ==> echoed == [line + Terminator]
    ensures (line != [] && Format(collectLog, line).None?) || Format(sendLog, line).None?
            ==> echoed == []
  {
    var h := new EchoHandler(collectLog, sendLog);
    if line != [] {
      var raised := h.CollectIncomingData(line);
      if raised {
        return h.pushed;
      }
      assert Concat(h.ibuffer) == line by {
        assert h.ibuffer == [line] && [line][..0] == [];
      }
    }
    var _ := h.FoundTerminator();
    echoed := h.pushed;
  }

  /** As written, no line of str data is ever echoed: both debug messages raise. */
  method EchoLineAsWritten(line: String) returns (echoed: seq<String>)
    ensures echoed == []
  {
    AsWrittenLogsRaise(line);
    echoed := EchoLine(CollectLog, SendLog, line);
  }

  /** With `%s` in the messages, every line of str data comes back with the
    * terminator. This holds only for str data: the bytes a Python 3 socket
    * delivers stop earlier, in asynchat's search for the terminator. */
  method EchoLineIntended(line: String) returns (echoed: seq<String>)
    ensures echoed == [line + Terminator]
  {
    IntendedLogsFormat(line);
    echoed := EchoLine(CollectLogIntended, SendLogIntended, line);
  }

  // ---------------------------------------------------------------------
  // translate_path
  // ---------------------------------------------------------------------

  /** The path without its query and its fragment. */
  function Unqueried(path: String): (r: String)
    ensures StartsWith(path, r) && '?' !in r && '#' !in r
  {
    var q := BeforeFirst(path, '?');
    var r := BeforeFirst(q, '#');
    assert r == q[..|r|] && q == path[..|q|];
    assert forall i :: 0 <= i < |r| ==> r[i] == q[i];
    r
  }

  /** A word `translate_path` refuses to join: one with a directory part,
    * `.` or `..`. */
  predicate Skipped(word: String)
  {
    PySplit(word).0 != [] || word == "." || word == ".."
  }

  /** The words that are joined, in order. */
  function Kept(words: seq<String>): (r: seq<String>)
    ensures forall k :: 0 <= k < |r| ==> !Skipped(r[k])
    ensures forall w :: w in r ==> w in words
  {
    if words == [] then []
    else
      var w := words[|words| - 1];
      var init := words[..|words| - 1];
      assert forall x :: x in init ==> x in words;
      Kept(init) + (if Skipped(w) then [] else [w])
  }

  /** One more word is kept unless it is skipped. */
  lemma {:induction false} KeptStep(words: seq<String>, i: nat)
    requires i < |words|
    ensures Kept(words[..i + 1]) == Kept(words[..i]) + (if Skipped(words[i]) then [] else [words[i]])
  {
    var s := words[..i + 1];
    assert s[..|s| - 1] == words[..i] && s[|s| - 1] == words[i];
  }

  /** One loop step of `translate_path`: a kept word is joined on. */
  lemma {:induction false} JoinedStep(cwd: String, words: seq<String>, i: nat)
    requires i < |words|
    ensures PyJoinAll(cwd, Kept(words[..i + 1]))
            == if Skipped(words[i]) then PyJoinAll(cwd, Kept(words[..i])) else PyJoin(PyJoinAll(cwd, Kept(words[..i])), words[i])
  {
    KeptStep(words, i);
    var kept := Kept(words[..i]);
    if Skipped(words[i]) {
      assert kept + [] == kept;
    } else {
      PyJoinAllAppend(cwd, kept, words[i]);
    }
  }

  /** Does the request name a directory? */
  predicate TrailingSlash(path: String)
  {
    EndsWith(TrimRight(Unqueried(path), IsPySpace), "/")
  }

  /** The non-empty words of the decoded, normalised path. */
  function Words(path: String, unquote: String -> String): (r: seq<String>)
    ensures forall k :: 0 <= k < |r| ==> r[k] != [] && '/' !in r[k]
  {
    var ws := Split(PyNormPath(unquote(Unqueried(path))), '/');
    var r := NonEmpty(ws);
    assert forall k :: 0 <= k < |r| ==> '/' !in r[k] by {
      forall k | 0 <= k < |r| ensures '/' !in r[k] {
        assert r[k] in r;
        var j :| 0 <= j < |ws| && ws[j] == r[k];
      }
    }
    r
  }

  /** The file name `translate_path` gives a request path. */
  function Translated(path: String, unquote: String -> String, cwd: String): String
  {
    PyJoinAll(cwd, Kept(Words(path, unquote))) + (if TrailingSlash(path) then "/" else "")
  }

  /** `translate_path`. */
  method TranslatePath(path: String, unquote: String -> String, cwd: String) returns (r: String)
    ensures r == Translated(path, unquote, cwd)
  {
    var p := BeforeFirst(path, '?');
    p := BeforeFirst(p, '#');
    var trailingSlash := EndsWith(TrimRight(p, IsPySpace), "/");
    p := unquote(p);
    p := PyNormPath(p);
    var words := NonEmpty(Split(p, '/'));
    r := cwd;
    for i := 0 to |words|
      invariant r == PyJoinAll(cwd, Kept(words[..i]))
    {
      var word := words[i];
      JoinedStep(cwd, words, i);
      if Skipped(word) {
        continue;
      }
      r := PyJoin(r, word);
    }
    assert words[..|words|] == words;
    assert words == Words(path, unquote);
    if trailingSlash {
      r := r + "/";
    }
  }

  /** A word without a slash has no directory part, so only `.` and `..`
    * are ever skipped. */
  lemma {:induction false} SkippedWord(word: String)
    requires '/' !in word
    ensures Skipped(word) <==> word == "." || word == ".."
  {
  }

  /** Every joined word is a plain name without a slash. */
  lemma {:induction false} KeptPlain(words: seq<String>)
    requires forall k :: 0 <= k < |words| ==> words[k] != [] && '/' !in words[k]
    ensures forall k :: 0 <= k < |Kept(words)| ==> Plain(Kept(words)[k]) && '/' !in Kept(words)[k]
  {
    var kept := Kept(words);
    forall k | 0 <= k < |kept| ensures Plain(kept[k]) && '/' !in kept[k] {
      assert kept[k] in kept;
      var j :| 0 <= j < |words| && words[j] == kept[k];
      SkippedWord(kept[k]);
    }
  }

  /** The translated name is the working directory followed by plain names
    * only (and the trailing slash), so it never leaves the working
    * directory. */
  lemma {:induction false} TranslatedUnderCwd(path: String, unquote: String -> String, cwd: String)
    requires cwd != []
    ensures var kept := Kept(Words(path, unquote));
            var tail := if TrailingSlash(path) then "/" else "";
            && (forall k :: 0 <= k < |kept| ==> Plain(kept[k]) && '/' !in kept[k])
            && Translated(path, unquote, cwd) ==
               (if kept == [] then cwd else cwd + (if cwd[|cwd| - 1] == '/' then "" else "/") + Join(kept, '/')) + tail
  {
    var kept := Kept(Words(path, unquote));
    KeptPlain(Words(path, unquote));
    assert forall k :: 0 <= k < |kept| ==> kept[k] != [] && '/' !in kept[k];
    UnslashedParts(kept);
    PyJoinAllPlain(cwd, kept);
  }

  /** The result ends in a slash exactly when the query-stripped request
    * did (for a working directory that does not end in one). */
  lemma {:induction false} TrailingSlashKept(path: String, unquote: String -> String, cwd: String)
    requires cwd != [] && cwd[|cwd| - 1] != '/'
    ensures EndsWith(Translated(path, unquote, cwd), "/") <==> TrailingSlash(path)
  {
    var words := Words(path, unquote);
    var kept := Kept(words);
    var joined := PyJoinAll(cwd, kept);
    assert joined != [] && joined[|joined| - 1] != '/' by {
      if kept == [] {
        assert joined == cwd;
      } else {
        var last := kept[|kept| - 1];
        assert Unslashed(last) by {
          KeptPlain(words);
          assert forall k :: 0 <= k < |kept| ==> kept[k] != [] && '/' !in kept[k];
          UnslashedParts(kept);
        }
        PyJoinAllEnds(cwd, kept);
        EndsWithLast(joined, last);
      }
    }
    var r := Translated(path, unquote, cwd);
    EndsWithChar(r, '/');
    if TrailingSlash(path) {
      assert r == joined + "/";
    } else {
      assert r == joined + "";
    }
  }

  // ---------------------------------------------------------------------
  // guess_type
  // ---------------------------------------------------------------------

  const DefaultType: String := "application/octet-stream"
  const PlainText: String := "text/plain"

  /** `extensions_map`: the system table with the server's own entries on top. */
  function ExtensionsMap(types: map<String, String>): (m: map<String, String>)
    ensures "" in m && m[""] == DefaultType
    ensures forall e :: e in m <==> e in types || e in {"", ".py", ".c", ".h"}
  {
    types + map["" := DefaultType, ".py" := PlainText, ".c" := PlainText, ".h" := PlainText]
  }

  /** The index of the last `c` in `p`, or -1. */
  function LastIndex(p: String, c: char): (r: int)
    ensures -1 <= r < |p|
    ensures r >= 0 ==> p[r] == c
    ensures forall j :: r < j < |p| ==> p[j] != c
  {
    if p == [] then -1
    else if p[|p| - 1] == c then |p| - 1
    else LastIndex(p[..|p| - 1], c)
  }

  /** `posixpath.splitext`: the extension runs from the last dot of the
    * base name, unless the base name has nothing but dots before it. */
  function SplitExt(p: String): (r: (String, String))
    ensures r.0 + r.1 == p
    ensures r.1 == [] || (r.1[0] == '.' && '/' !in r.1 && '.' !in r.1[1..])
  {
    var sepIndex := LastIndex(p, '/');
    var dotIndex := LastIndex(p, '.');
    if dotIndex > sepIndex && exists i :: sepIndex + 1 <= i < dotIndex && p[i] != '.' then
      var ext := p[dotIndex..];
      assert forall j :: 1 <= j < |ext| ==> ext[j] == p[dotIndex + j];
      assert p[..dotIndex] + ext == p;
      (p[..dotIndex], ext)
    else
      (p, [])
  }

  /** A name with a stem that does not start with a dot splits at its last dot. */
  lemma {:induction false} SplitExtOfName(dir: String, stem: String, ext: String)
    requires stem != [] && stem[0] != '.' && '/' !in stem
    requires '/' !in ext && '.' !in ext
    ensures SplitExt(dir + "/" + stem + "." + ext) == (dir + "/" + stem, "." + ext)
  {
    var p := dir + "/" + stem + "." + ext;
    var s := |dir|;
    var d := |dir| + 1 + |stem|;
    assert p[s] == '/' && p[d] == '.' && p[s + 1] == stem[0];
    assert forall j :: d < j < |p| ==> p[j] == ext[j - d - 1];
    assert forall j :: s < j < |p| ==> p[j] != '/' by {
      forall j | s < j < |p| ensures p[j] != '/' {
        if j < d {
          assert p[j] == stem[j - s - 1];
          assert stem[j - s - 1] in stem;
        } else if j > d {
          assert ext[j - d - 1] in ext;
        }
      }
    }
    assert forall j :: d < j < |p| ==> p[j] != '.' by {
      forall j | d < j < |p| ensures p[j] != '.' {
        assert ext[j - d - 1] in ext;
      }
    }
    assert LastIndex(p, '/') == s;
    assert LastIndex(p, '.') == d;
    assert p[..d] == dir + "/" + stem;
    assert p[d..] == "." + ext;
  }

  /** A name that is a dot followed by a dot-free name has no extension. */
  lemma {:induction false} HiddenFileHasNoExtension(dir: String, name: String)
    requires '/' !in name && '.' !in name
    ensures SplitExt(dir + "/." + name) == (dir + "/." + name, [])
  {
    var p := dir + "/." + name;
    var s := |dir|;
    assert p[s] == '/' && p[s + 1] == '.';
    assert forall j :: s + 1 < j < |p| ==> p[j] != '/' && p[j] != '.' by {
      forall j | s + 1 < j < |p| ensures p[j] != '/' && p[j] != '.' {
        assert p[j] == name[j - s - 2];
        assert name[j - s - 2] in name;
      }
    }
    assert LastIndex(p, '/') == s;
    assert LastIndex(p, '.') == s + 1;
  }

  /** `guess_type`: the exact extension, then its lower-case form, then the default. */
  function GuessType(path: String, types: map<String, String>): String
  {
    var ext := SplitExt(path).1;
    var m := ExtensionsMap(types);
    if ext in m then m[ext]
    else if Lower(ext) in m then m[Lower(ext)]
    else m[""]
  }

  /** Python and C sources are plain text, whatever the system table says. */
  lemma {:induction false} SourcesArePlainText(path: String, types: map<String, String>)
    requires SplitExt(path).1 in {".py", ".c", ".h"}
    ensures GuessType(path, types) == PlainText
  {
  }

  /** A name without an extension, or with one known in neither case, is
    * served as `application/octet-stream`. */
  lemma {:induction false} UnknownIsOctetStream(path: String, types: map<String, String>)
    requires var ext := SplitExt(path).1;
             ext == [] || (ext !in ExtensionsMap(types) && Lower(ext) !in ExtensionsMap(types))
    ensures GuessType(path, types) == DefaultType
  {
  }

  /** An extension the table knows only in lower case is looked up in lower case. */
  lemma {:induction false} UpperCaseFallsBack(path: String, types: map<String, String>)
    requires var ext := SplitExt(path).1;
             ext !in ExtensionsMap(types) && Lower(ext) in types
             && Lower(ext) !in {"", ".py", ".c", ".h"}
    ensures GuessType(path, types) == types[Lower(SplitExt(path).1)]
  {
  }

  /** `guess_type` on `dir/stem.py` answers text, for any stem that is a
    * name not starting with a dot. */
  lemma {:induction false} PythonFileIsText(dir: String, stem: String, types: map<String, String>)
    requires stem != [] && stem[0] != '.' && '/' !in stem
    ensures GuessType(dir + "/" + stem + ".py", types) == PlainText
  {
    SplitExtOfName(dir, stem, "py");
    assert "." + "py" == ".py";
  }
}
