/** The streaming request parser of tcprouter/request.go: from a buffered
    reader positioned at the start of a request it reads the request line and
    the header lines, one '\n'-terminated line at a time, and yields the
    method, the URI and the header map, or fails. Nothing after the blank line
    that ends the header block is consumed.

    The byte stream is a `string` with a cursor (`BufReader`); a read that
    finds no further '\n' is a read error (Go's io.EOF from ReadString). */
module SimpleHttp {
  import opened Strings

  datatype ParseError =
    | ReadError              // ReadString hit the end of the stream
    | MalformedRequestLine   // fewer than three space-separated parts

  datatype Result<+T> = Ok(value: T) | Err(error: ParseError)

  /** A parsed request. `rest` is where the shared reader stands afterwards
      (the connection itself is not part of the model). */
  datatype Request = Request(httpMethod: string, uri: string, headers: map<string, string>, rest: nat)

  /** bufio.Reader.ReadString('\n') from `pos`: the line up to and including
      the next '\n', and the position after it; None when there is none. */
  function NextLine(s: string, pos: nat): (r: Option<(string, nat)>)
    requires pos <= |s|
    ensures r.Some? ==> pos < r.value.1 <= |s| && r.value.0 == s[pos..r.value.1]
  {
    match IndexFrom(s, '\n', pos)
    case None => None
    case Some(j) => Some((s[pos..j + 1], j + 1))
  }

  /** The request line, once trimmed and split on single spaces, must have at
      least three parts; the first two are the method and the URI. */
  function RequestLine(line: string): Result<(string, string)>
  {
    var parts := Split(TrimSpace(line), ' ');
    if |parts| < 3 then Err(MalformedRequestLine) else Ok((parts[0], parts[1]))
  }

  /** A trimmed, non-blank header line: split at its first colon, both halves
      trimmed; None (the line is skipped) when it holds no colon. */
  function HeaderField(line: string): Option<(string, string)>
  {
    match SplitFirst(line, ':')
    case None => None
    case Some((name, value)) => Some((TrimSpace(name), TrimSpace(value)))
  }

  /** A line that is empty once trimmed: it ends the header block. */
  predicate Blank(line: string)
  {
    TrimSpace(line) == []
  }

  /** The effect of one non-blank header line on the map: the trimmed line's
      field is stored (overwriting an earlier value); a line without a colon
      leaves the map as it was. */
  function Absorb(line: string, acc: map<string, string>): map<string, string>
  {
    match HeaderField(TrimSpace(line))
    case None => acc
    case Some((name, value)) => acc[name := value]
  }

  /** The header loop: read lines until one is blank after trimming, storing
      each field in `acc` (a later field with the same name overwrites). */
  function ReadHeaders(s: string, pos: nat, acc: map<string, string>): (r: Result<(map<string, string>, nat)>)
    requires pos <= |s|
    ensures r.Ok? ==> pos < r.value.1 <= |s|
    decreases |s| - pos
  {
    match NextLine(s, pos)
    case None => Err(ReadError)
    case Some((line, next)) =>
      if Blank(line) then Ok((acc, next)) else ReadHeaders(s, next, Absorb(line, acc))
  }

  /** parseRequest, as a function of the stream and the reader position. */
  function Parse(s: string, pos: nat): (r: Result<Request>)
    requires pos <= |s|
    ensures r.Ok? ==> pos < r.value.rest <= |s|
  {
    match NextLine(s, pos)
    case None => Err(ReadError)
    case Some((line, next)) =>
      match RequestLine(line)
      case Err(e) => Err(e)
      case Ok((httpMethod, uri)) =>
        match ReadHeaders(s, next, map[])
        case Err(e) => Err(e)
        case Ok((headers, end)) => Ok(Request(httpMethod, uri, headers, end))
  }

  /** The connection reader's loop (tcprouter/server.go): parse repeatedly
      and stop at the first error, yielding the requests in stream order. */
  function ReadAll(s: string, pos: nat): (r: seq<Request>)
    requires pos <= |s|
    ensures forall i | 0 <= i < |r| :: pos < r[i].rest <= |s|
    ensures forall i, j | 0 <= i < j < |r| :: r[i].rest < r[j].rest
    decreases |s| - pos
  {
    match Parse(s, pos)
    case Err(_) => []
    case Ok(r) => [r] + ReadAll(s, r.rest)
  }

  /** The buffered reader shared by the parser and the handlers: the whole
      stream and the read position. */
  class BufReader {
    const data: string
    var pos: nat

    ghost predicate Valid()
      reads this
    {
      pos <= |data|
    }

    constructor (data: string)
      ensures Valid() && this.data == data && pos == 0
    {
      this.data := data;
      pos := 0;
    }

    /** ReadString('\n'): on success the line and the cursor after it; on a
        read error everything left has been consumed. */
    method ReadString() returns (line: string, ok: bool)
      requires Valid()
      modifies this
      ensures Valid()
      ensures ok <==> NextLine(data, old(pos)).Some?
      ensures ok ==> (line, pos) == NextLine(data, old(pos)).value
      ensures !ok ==> pos == |data|
    {
      var k := pos;
      while k < |data| && data[k] != '\n'
        invariant pos <= k <= |data|
        invariant '\n' !in data[pos..k]
      {
        k := k + 1;
      }
      if k == |data| {
        assert data[pos..] == data[pos..k];
        IndexFromShape(data, '\n', pos);
        line, ok := data[pos..], false;
        pos := |data|;
      } else {
        IndexFromAt(data, '\n', pos, k);
        line, ok := data[pos..k + 1], true;
        pos := k + 1;
      }
    }
  }

  /** parseRequest: the request line, then the header loop, filling the
      header map in place. */
  method ParseRequest(reader: BufReader) returns (r: Result<Request>)
    requires reader.Valid()
    modifies reader
    ensures reader.Valid()
    ensures r == Parse(reader.data, old(reader.pos))
    ensures r.Ok? ==> reader.pos == r.value.rest
    ensures r == Err(ReadError) ==> reader.pos == |reader.data|
  {
    var line, ok := reader.ReadString();
    if !ok {
      return Err(ReadError);
    }
    line := TrimSpace(line);
    var parts := Split(line, ' ');
    if |parts| < 3 {
      return Err(MalformedRequestLine);
    }
    var httpMethod, uri := parts[0], parts[1];

    var headers: map<string, string> := map[];
    ghost var start := reader.pos;
    while true
      invariant reader.Valid() && start <= reader.pos
      invariant ReadHeaders(reader.data, reader.pos, headers) == ReadHeaders(reader.data, start, map[])
      decreases |reader.data| - reader.pos
    {
      ghost var before := reader.pos;
      var hline, hok := reader.ReadString();
      if !hok {
        return Err(ReadError);
      }
      hline := TrimSpace(hline);
      if hline == [] {
        assert ReadHeaders(reader.data, before, headers) == Ok((headers, reader.pos));
        break;
      }
      var field := SplitFirst(hline, ':');
      if field.None? {
        continue;
      }
      headers := headers[TrimSpace(field.value.0) := TrimSpace(field.value.1)];
    }
    r := Ok(Request(httpMethod, uri, headers, reader.pos));
  }

  // ---------------------------------------------------------------- wire form

  /** A header list applied in order to a map: the last field of a name wins. */
  function Collect(acc: map<string, string>, fields: seq<(string, string)>): map<string, string>
    decreases |fields|
  {
    if fields == [] then acc else Collect(acc[fields[0].0 := fields[0].1], fields[1..])
  }

  function HeaderText(fields: seq<(string, string)>): string
    decreases |fields|
  {
    if fields == [] then []
    else FieldLine(fields[0]) + HeaderText(fields[1..])
  }

  /** "Name: Value CRLF". */
  function FieldLine(f: (string, string)): string
  {
    f.0 + ": " + f.1 + "\r\n"
  }

  /** The field line without its line ending and, for an empty value, without
      the space after the colon: what remains once the line is trimmed. */
  function FieldCore(f: (string, string)): string
  {
    if f.1 == [] then f.0 + ":" else f.0 + ": " + f.1
  }

  /** "METHOD SP TARGET SP VERSION". */
  function RequestLineCore(httpMethod: string, uri: string, version: string): string
  {
    httpMethod + " " + uri + " " + version
  }

  /** "METHOD SP TARGET SP VERSION CRLF", the field lines, and a blank line. */
  function Wire(httpMethod: string, uri: string, version: string, fields: seq<(string, string)>): string
  {
    RequestLineCore(httpMethod, uri, version) + "\r\n" + (HeaderText(fields) + "\r\n")
  }

  /** The stream holds `w` at `pos`, one character at a time. */
  ghost predicate HoldsAt(s: string, pos: nat, w: string)
    decreases |w|
  {
    pos + |w| <= |s| && (w == [] || (s[pos] == w[0] && HoldsAt(s, pos + 1, w[1..])))
  }

  /** A request-line token: no white space at all. */
  predicate Token(t: string)
  {
    forall i | 0 <= i < |t| :: !IsSpace(t[i])
  }

  /** A field line that reads back as itself: no colon in the name, no line
      break anywhere, no white space at either end of name or value. */
  predicate PlainField(f: (string, string))
  {
    ':' !in f.0 && '\n' !in f.0 && '\n' !in f.1 && NoEdge(f.0, AsciiSpace) && NoEdge(f.1, AsciiSpace)
  }

  // ---------------------------------------------------------------- lemmas

  /** NextLine fails exactly when no '\n' is left; otherwise its line ends
      with the first '\n' after `pos`. */
  lemma NextLineShape(s: string, pos: nat)
    requires pos <= |s|
    ensures NextLine(s, pos).None? <==> '\n' !in s[pos..]
    ensures NextLine(s, pos).Some? ==> var next := NextLine(s, pos).value.1;
      s[next - 1] == '\n' && '\n' !in s[pos..next - 1]
  {
    IndexFromShape(s, '\n', pos);
  }

  /** A line that ends the only '\n' it holds is read whole. */
  lemma NextLineAt(s: string, pos: nat, line: string)
    requires pos + |line| <= |s| && s[pos..pos + |line|] == line
    requires line != [] && line[|line| - 1] == '\n' && '\n' !in line[..|line| - 1]
    ensures NextLine(s, pos) == Some((line, pos + |line|))
  {
    assert s[pos..pos + |line| - 1] == line[..|line| - 1];
    assert s[pos + |line| - 1] == line[|line| - 1];
    IndexFromAt(s, '\n', pos, pos + |line| - 1);
  }

  /** The request line is malformed exactly when, once trimmed, it holds fewer
      than two spaces. */
  lemma MalformedIffFewSpaces(line: string)
    ensures RequestLine(line) == Err(MalformedRequestLine) <==>
      !exists i, j | 0 <= i < j < |TrimSpace(line)| :: TrimSpace(line)[i] == ' ' && TrimSpace(line)[j] == ' '
  {
    SplitFewPieces(TrimSpace(line), ' ');
  }

  /** On success the method and the URI are the first two space-separated
      tokens of the trimmed request line; whatever follows is discarded. */
  lemma RequestLineTokens(line: string, httpMethod: string, uri: string)
    requires RequestLine(line) == Ok((httpMethod, uri))
    ensures ' ' !in httpMethod && ' ' !in uri
    ensures var t := TrimSpace(line);
      |httpMethod| + |uri| + 2 <= |t| && t == httpMethod + " " + uri + " " + t[|httpMethod| + |uri| + 2..]
  {
    SplitFirstTwo(TrimSpace(line), ' ', httpMethod, uri);
  }

  /** Conversely, any trimmed line that starts with two space-free tokens,
      each followed by a space, parses to exactly those two tokens. */
  lemma RequestLineFromTokens(line: string, httpMethod: string, uri: string, tail: string)
    requires ' ' !in httpMethod && ' ' !in uri
    requires TrimSpace(line) == httpMethod + " " + uri + " " + tail
    ensures RequestLine(line) == Ok((httpMethod, uri))
  {
    assert TrimSpace(line) == httpMethod + [' '] + (uri + [' '] + tail);
    SplitCons(httpMethod, ' ', uri + [' '] + tail);
    SplitCons(uri, ' ', tail);
  }

  /** A stream without a further line break yields a read error. */
  lemma NoLineNoRequest(s: string, pos: nat)
    requires pos <= |s| && '\n' !in s[pos..]
    ensures Parse(s, pos) == Err(ReadError) && ReadAll(s, pos) == []
  {
  }

  /** Two streams that agree up to `bound` read the same line from `pos` when
      that line ends by `bound`. */
  lemma SameLine(s: string, s': string, pos: nat, bound: nat)
    requires pos <= |s| && NextLine(s, pos).Some? && NextLine(s, pos).value.1 <= bound
    requires bound <= |s'| && bound <= |s| && s'[..bound] == s[..bound]
    ensures NextLine(s', pos) == NextLine(s, pos)
  {
    var (line, next) := NextLine(s, pos).value;
    NextLineShape(s, pos);
    assert line[..|line| - 1] == s[pos..next - 1];
    assert s'[pos..next] == s[..bound][pos..next];
    NextLineAt(s', pos, line);
  }

  /** A stream cut at `k`, before the end of the line read from `pos`, holds
      no further line. */
  lemma CutLine(s: string, pos: nat, k: nat)
    requires pos <= k <= |s| && NextLine(s, pos).Some? && k < NextLine(s, pos).value.1
    ensures NextLine(s[..k], pos).None?
  {
    var next := NextLine(s, pos).value.1;
    NextLineShape(s, pos);
    NextLineShape(s[..k], pos);
    assert s[..k][pos..] == s[pos..next - 1][..k - pos];
  }

  /** A cut at or after the end of the line read from `pos` keeps that line. */
  lemma CutAfterLine(s: string, pos: nat, k: nat)
    requires pos <= |s| && NextLine(s, pos).Some? && NextLine(s, pos).value.1 <= k <= |s|
    ensures NextLine(s[..k], pos) == NextLine(s, pos)
  {
    assert s[..k][..k] == s[..k];
    SameLine(s, s[..k], pos, k);
  }

  /** The header loop only looks at the stream up to the end of the block:
      a stream that agrees up to there reads the same headers. */
  lemma {:induction false} ReadHeadersLocal(s: string, pos: nat, acc: map<string, string>, s': string)
    requires pos <= |s| && ReadHeaders(s, pos, acc).Ok?
    requires var end := ReadHeaders(s, pos, acc).value.1;
      end <= |s'| && s'[..end] == s[..end]
    ensures ReadHeaders(s', pos, acc) == ReadHeaders(s, pos, acc)
    decreases |s| - pos
  {
    var (line, next) := NextLine(s, pos).value;
    SameLine(s, s', pos, ReadHeaders(s, pos, acc).value.1);
    if !Blank(line) {
      ReadHeadersLocal(s, next, Absorb(line, acc), s');
    }
  }

  /** A stream cut anywhere before the end of the header block is a read
      error. */
  lemma {:induction false} ReadHeadersCut(s: string, pos: nat, acc: map<string, string>, k: nat)
    requires pos <= k <= |s| && ReadHeaders(s, pos, acc).Ok? && k < ReadHeaders(s, pos, acc).value.1
    ensures ReadHeaders(s[..k], pos, acc) == Err(ReadError)
    decreases |s| - pos
  {
    var (line, next) := NextLine(s, pos).value;
    if k < next {
      CutLine(s, pos, k);
    } else {
      CutAfterLine(s, pos, k);
      ReadHeadersCut(s, next, Absorb(line, acc), k);
    }
  }

  /** No body is consumed: a parse depends only on the stream up to the end of
      its header block. */
  lemma ParseIsLocal(s: string, pos: nat, s': string)
    requires pos <= |s| && Parse(s, pos).Ok?
    requires var r := Parse(s, pos).value; r.rest <= |s'| && s'[..r.rest] == s[..r.rest]
    ensures Parse(s', pos) == Parse(s, pos)
  {
    var next := NextLine(s, pos).value.1;
    SameLine(s, s', pos, Parse(s, pos).value.rest);
    ReadHeadersLocal(s, next, map[], s');
  }

  /** No partial request is ever produced: the stream cut anywhere before the
      end of the header block is a read error. */
  lemma ParseCut(s: string, pos: nat, k: nat)
    requires pos <= k <= |s| && Parse(s, pos).Ok? && k < Parse(s, pos).value.rest
    ensures Parse(s[..k], pos) == Err(ReadError)
  {
    var next := NextLine(s, pos).value.1;
    if k < next {
      CutLine(s, pos, k);
    } else {
      CutAfterLine(s, pos, k);
      ReadHeadersCut(s, next, map[], k);
    }
  }

  /** A line that is blank once trimmed ends the header block; a bare CRLF
      is such a line. */
  lemma CrlfEndsHeaders(s: string, pos: nat, acc: map<string, string>)
    requires pos + 2 <= |s| && s[pos..pos + 2] == "\r\n"
    ensures ReadHeaders(s, pos, acc) == Ok((acc, pos + 2))
  {
    NextLineAt(s, pos, "\r\n");
    assert TrimLeft("\r\n", AsciiSpace) == [];
  }

  /** A non-blank header line without a colon is skipped: the map is as if
      the line were not there. */
  lemma NoColonSkipped(s: string, pos: nat, acc: map<string, string>, line: string, next: nat)
    requires pos <= |s| && NextLine(s, pos) == Some((line, next))
    requires ':' !in line && TrimSpace(line) != []
    ensures ReadHeaders(s, pos, acc) == ReadHeaders(s, next, acc)
  {
    var l := TrimLeft(line, AsciiSpace);
    var t := TrimRight(l, AsciiSpace);
    TrimLeftShape(line, AsciiSpace);
    TrimRightShape(l, AsciiSpace);
    assert t == line[|line| - |l|..][..|t|];
    assert ':' !in t;
  }

  /** A field splits at its first colon only, so a value may hold further
      colons; name and value are each trimmed. */
  lemma FieldSplitsAtFirstColon(name: string, value: string)
    requires ':' !in name
    ensures HeaderField(name + ":" + value) == Some((TrimSpace(name), TrimSpace(value)))
  {
    SplitFirstAt(name, ':', value);
  }

  /** With a repeated header name the map holds the value of the last
      occurrence; names that never occur keep their earlier value. */
  lemma {:induction false} CollectLastWins(acc: map<string, string>, fields: seq<(string, string)>, i: nat)
    requires i < |fields|
    requires forall j | i < j < |fields| :: fields[j].0 != fields[i].0
    ensures fields[i].0 in Collect(acc, fields) && Collect(acc, fields)[fields[i].0] == fields[i].1
    decreases |fields|
  {
    if i == 0 {
      CollectKeeps(acc[fields[0].0 := fields[0].1], fields[1..], fields[0].0);
    } else {
      CollectLastWins(acc[fields[0].0 := fields[0].1], fields[1..], i - 1);
    }
  }

  lemma {:induction false} CollectKeeps(acc: map<string, string>, fields: seq<(string, string)>, name: string)
    requires forall j | 0 <= j < |fields| :: fields[j].0 != name
    ensures name in acc ==> name in Collect(acc, fields) && Collect(acc, fields)[name] == acc[name]
    ensures name !in acc ==> name !in Collect(acc, fields)
    decreases |fields|
  {
    if fields != [] {
      CollectKeeps(acc[fields[0].0 := fields[0].1], fields[1..], name);
    }
  }

  lemma FieldLineBreak(f: (string, string))
    requires PlainField(f)
    ensures var line := FieldLine(f); line != [] && line[|line| - 1] == '\n' && '\n' !in line[..|line| - 1]
  {
    var line := FieldLine(f);
    assert line[..|line| - 1] == f.0 + ": " + f.1 + "\r";
  }

  lemma FieldLineTrim(f: (string, string))
    requires PlainField(f)
    ensures TrimSpace(FieldLine(f)) == FieldCore(f)
  {
    var core := FieldCore(f);
    var pad := if f.1 == [] then " \r\n" else "\r\n";
    assert FieldLine(f) == [] + core + pad;
    assert core[0] == (if f.0 == [] then ':' else f.0[0]);
    assert core[|core| - 1] == (if f.1 == [] then ':' else f.1[|f.1| - 1]);
    TrimPadded([], core, pad, AsciiSpace);
  }

  lemma FieldCoreReadsEmpty(name: string)
    requires PlainField((name, []))
    ensures HeaderField(name + ":") == Some((name, []))
  {
    assert name + ":" == name + [':'] + [];
    SplitFirstAt(name, ':', []);
    TrimKeeps(name, AsciiSpace);
  }

  lemma FieldCoreReadsValue(name: string, value: string)
    requires PlainField((name, value)) && value != []
    ensures HeaderField(name + ": " + value) == Some((name, value))
  {
    assert name + ": " + value == name + [':'] + (" " + value);
    SplitFirstAt(name, ':', " " + value);
    TrimKeeps(name, AsciiSpace);
    SpaceThen(value);
  }

  lemma SpaceThen(value: string)
    requires value != [] && NoEdge(value, AsciiSpace)
    ensures TrimSpace(" " + value) == value
  {
    assert " " + value == " " + value + [];
    TrimPadded(" ", value, [], AsciiSpace);
  }

  lemma FieldCoreReads(f: (string, string))
    requires PlainField(f)
    ensures HeaderField(FieldCore(f)) == Some(f)
  {
    if f.1 == [] {
      FieldCoreReadsEmpty(f.0);
    } else {
      FieldCoreReadsValue(f.0, f.1);
    }
  }

  /** A line whose trimmed text holds field `f` stores `f` in the map. */
  lemma AbsorbField(line: string, f: (string, string), acc: map<string, string>)
    requires HeaderField(TrimSpace(line)) == Some(f)
    ensures Absorb(line, acc) == acc[f.0 := f.1]
  {
  }

  lemma FieldLineReads(f: (string, string))
    requires PlainField(f)
    ensures TrimSpace(FieldLine(f)) != [] && HeaderField(TrimSpace(FieldLine(f))) == Some(f)
  {
    FieldLineTrim(f);
    FieldCoreReads(f);
  }

  /** One field line written as "Name: Value CRLF" is read back as it was. */
  lemma FieldLineRoundTrip(f: (string, string), acc: map<string, string>)
    requires PlainField(f)
    ensures !Blank(FieldLine(f)) && Absorb(FieldLine(f), acc) == acc[f.0 := f.1]
  {
    FieldLineReads(f);
    AbsorbField(FieldLine(f), f, acc);
  }

  /** One step of the header loop over a non-blank line. */
  lemma ReadHeadersStep(s: string, pos: nat, acc: map<string, string>, line: string, next: nat)
    requires pos <= |s| && NextLine(s, pos) == Some((line, next)) && !Blank(line)
    ensures ReadHeaders(s, pos, acc) == ReadHeaders(s, next, Absorb(line, acc))
  {
  }

  /** A header line at `pos` whose trimmed text holds field `f`, read and
      stored. */
  lemma FieldStep(s: string, pos: nat, acc: map<string, string>, line: string, next: nat, f: (string, string))
    requires pos <= |s| && NextLine(s, pos) == Some((line, next))
    requires TrimSpace(line) != [] && HeaderField(TrimSpace(line)) == Some(f)
    ensures ReadHeaders(s, pos, acc) == ReadHeaders(s, next, acc[f.0 := f.1])
  {
    AbsorbField(line, f, acc);
    ReadHeadersStep(s, pos, acc, line, next);
  }

  lemma HeaderBlockCons(fields: seq<(string, string)>)
    requires fields != []
    ensures HeaderText(fields) + "\r\n" == FieldLine(fields[0]) + (HeaderText(fields[1..]) + "\r\n")
    ensures |HeaderText(fields)| == |FieldLine(fields[0])| + |HeaderText(fields[1..])|
  {
  }

  lemma CollectCons(acc: map<string, string>, fields: seq<(string, string)>)
    requires fields != []
    ensures Collect(acc, fields) == Collect(acc[fields[0].0 := fields[0].1], fields[1..])
  {
  }

  /** From `pos` on, the stream holds one non-blank line per field, each of
      which reads as that field, then a CRLF ending at `end`. */
  ghost predicate FieldLinesAt(s: string, pos: nat, fields: seq<(string, string)>, end: nat)
    decreases |fields|
  {
    pos <= |s| &&
    if fields == [] then pos + 2 <= |s| && s[pos..pos + 2] == "\r\n" && end == pos + 2
    else match NextLine(s, pos)
      case None => false
      case Some((line, next)) =>
        TrimSpace(line) != [] && HeaderField(TrimSpace(line)) == Some(fields[0]) && FieldLinesAt(s, next, fields[1..], end)
  }

  /** The header loop over such lines builds the map the fields build in
      order and stops at `end`. */
  lemma {:induction false} ReadFieldLines(s: string, pos: nat, acc: map<string, string>, fields: seq<(string, string)>, end: nat)
    requires FieldLinesAt(s, pos, fields, end)
    ensures ReadHeaders(s, pos, acc) == Ok((Collect(acc, fields), end))
    decreases |fields|
  {
    if fields == [] {
      CrlfEndsHeaders(s, pos, acc);
    } else {
      var (line, next) := NextLine(s, pos).value;
      var f := fields[0];
      FieldStep(s, pos, acc, line, next, f);
      ReadFieldLines(s, next, acc[f.0 := f.1], fields[1..], end);
      CollectCons(acc, fields);
    }
  }

  /** HoldsAt is the slice equality. */
  lemma {:induction false} HoldsAtSlice(s: string, pos: nat, w: string)
    ensures HoldsAt(s, pos, w) <==> (pos + |w| <= |s| && s[pos..pos + |w|] == w)
    decreases |w|
  {
    if w != [] && pos + |w| <= |s| {
      HoldsAtSlice(s, pos + 1, w[1..]);
      assert s[pos..pos + |w|] == [s[pos]] + s[pos + 1..pos + 1 + |w[1..]|];
      assert w == [w[0]] + w[1..];
    }
  }

  /** A stream holding `a + b` at `pos` holds `a` at `pos` and `b` after it. */
  lemma HoldsAtSplit(s: string, pos: nat, a: string, b: string)
    requires HoldsAt(s, pos, a + b)
    ensures HoldsAt(s, pos, a) && HoldsAt(s, pos + |a|, b)
  {
    HoldsAtSlice(s, pos, a + b);
    HoldsAtSlice(s, pos, a);
    HoldsAtSlice(s, pos + |a|, b);
    assert s[pos..pos + |a|] == (a + b)[..|a|];
    assert s[pos + |a|..pos + |a| + |b|] == (a + b)[|a|..];
  }

  /** A written field line is read whole and reads as its field. */
  lemma FieldLineAt(s: string, pos: nat, f: (string, string), next: nat)
    requires PlainField(f) && HoldsAt(s, pos, FieldLine(f)) && next == pos + |FieldLine(f)|
    ensures pos <= |s| && NextLine(s, pos) == Some((FieldLine(f), next))
    ensures TrimSpace(FieldLine(f)) != [] && HeaderField(TrimSpace(FieldLine(f))) == Some(f)
  {
    HoldsAtSlice(s, pos, FieldLine(f));
    FieldLineBreak(f);
    NextLineAt(s, pos, FieldLine(f));
    FieldLineReads(f);
  }

  lemma FieldLinesIntro(s: string, pos: nat, fields: seq<(string, string)>, line: string, next: nat, end: nat)
    requires pos <= |s| && fields != [] && NextLine(s, pos) == Some((line, next))
    requires TrimSpace(line) != [] && HeaderField(TrimSpace(line)) == Some(fields[0])
    requires FieldLinesAt(s, next, fields[1..], end)
    ensures FieldLinesAt(s, pos, fields, end)
  {
  }

  /** A written header block is such a sequence of field lines. */
  lemma {:induction false} BlockIsFieldLines(s: string, pos: nat, fields: seq<(string, string)>, end: nat)
    requires forall i | 0 <= i < |fields| :: PlainField(fields[i])
    requires HoldsAt(s, pos, HeaderText(fields) + "\r\n") && end == pos + |HeaderText(fields)| + 2
    ensures FieldLinesAt(s, pos, fields, end)
    decreases |fields|
  {
    if fields == [] {
      EmptyBlock(s, pos, fields);
    } else {
      var f, rest := fields[0], fields[1..];
      var mid := pos + |FieldLine(f)|;
      HeaderBlockCons(fields);
      HoldsAtSplit(s, pos, FieldLine(f), HeaderText(rest) + "\r\n");
      BlockIsFieldLines(s, mid, rest, end);
      BlockCons(s, pos, fields, f, rest, mid, end);
    }
  }

  lemma EmptyBlock(s: string, pos: nat, fields: seq<(string, string)>)
    requires fields == [] && HoldsAt(s, pos, HeaderText(fields) + "\r\n")
    ensures FieldLinesAt(s, pos, fields, pos + |HeaderText(fields)| + 2)
  {
    assert HeaderText(fields) + "\r\n" == "\r\n";
    HoldsAtSlice(s, pos, "\r\n");
  }

  lemma BlockCons(s: string, pos: nat, fields: seq<(string, string)>, f: (string, string), rest: seq<(string, string)>, mid: nat, end: nat)
    requires fields != [] && f == fields[0] && rest == fields[1..]
    requires PlainField(f) && HoldsAt(s, pos, FieldLine(f)) && mid == pos + |FieldLine(f)|
    requires FieldLinesAt(s, mid, rest, end)
    ensures FieldLinesAt(s, pos, fields, end)
  {
    FieldLineAt(s, pos, f, mid);
    FieldLinesIntro(s, pos, fields, FieldLine(f), mid, end);
  }

  /** Three tokens joined by single spaces form a valid request line. */
  lemma RequestLineRoundTrip(httpMethod: string, uri: string, version: string)
    requires Token(httpMethod) && Token(uri) && Token(version) && httpMethod != [] && version != []
    ensures var line := RequestLineCore(httpMethod, uri, version) + "\r\n";
      '\n' !in line[..|line| - 1] && RequestLine(line) == Ok((httpMethod, uri))
  {
    var core := RequestLineCore(httpMethod, uri, version);
    var line := core + "\r\n";
    assert ' ' !in httpMethod && ' ' !in uri && '\n' !in httpMethod && '\n' !in uri && '\n' !in version by {
      assert IsSpace(' ') && IsSpace('\n');
    }
    assert line[..|line| - 1] == core + "\r";
    assert core[0] == httpMethod[0] && core[|core| - 1] == version[|version| - 1];
    assert !IsSpace(httpMethod[0]) && !IsSpace(version[|version| - 1]);
    assert line == [] + core + "\r\n";
    TrimPadded([], core, "\r\n", AsciiSpace);
    RequestLineFromTokens(line, httpMethod, uri, version);
  }

  /** A parse that reads a well-formed request line and then field lines
      up to a blank line. */
  lemma ParseLayout(s: string, pos: nat, line: string, next: nat, httpMethod: string, uri: string, fields: seq<(string, string)>, end: nat)
    requires pos <= |s| && NextLine(s, pos) == Some((line, next)) && RequestLine(line) == Ok((httpMethod, uri))
    requires FieldLinesAt(s, next, fields, end)
    ensures Parse(s, pos) == Ok(Request(httpMethod, uri, Collect(map[], fields), end))
  {
    ReadFieldLines(s, next, map[], fields, end);
  }

  /** A wire-form request at `pos` is a request line naming its method and
      URI, then field lines reading as its fields up to the blank line. */
  lemma WireLayout(s: string, pos: nat, httpMethod: string, uri: string, version: string, fields: seq<(string, string)>,
                   line: string, block: string, next: nat, end: nat)
    requires Token(httpMethod) && Token(uri) && Token(version) && httpMethod != [] && version != []
    requires forall i | 0 <= i < |fields| :: PlainField(fields[i])
    requires line == RequestLineCore(httpMethod, uri, version) + "\r\n" && block == HeaderText(fields) + "\r\n"
    requires HoldsAt(s, pos, line + block) && next == pos + |line| && end == next + |block|
    ensures pos <= |s| && NextLine(s, pos) == Some((line, next)) && RequestLine(line) == Ok((httpMethod, uri))
    ensures FieldLinesAt(s, next, fields, end)
  {
    HoldsAtSplit(s, pos, line, block);
    HoldsAtSlice(s, pos, line);
    RequestLineRoundTrip(httpMethod, uri, version);
    NextLineAt(s, pos, line);
    BlockIsFieldLines(s, next, fields, end);
  }

  /** The parse of a wire-form request laid out as `line` then `block`. */
  lemma WireParse(s: string, pos: nat, httpMethod: string, uri: string, version: string, fields: seq<(string, string)>,
                  line: string, block: string, next: nat, end: nat)
    requires Token(httpMethod) && Token(uri) && Token(version) && httpMethod != [] && version != []
    requires forall i | 0 <= i < |fields| :: PlainField(fields[i])
    requires line == RequestLineCore(httpMethod, uri, version) + "\r\n" && block == HeaderText(fields) + "\r\n"
    requires HoldsAt(s, pos, line + block) && next == pos + |line| && end == next + |block|
    ensures Parse(s, pos) == Ok(Request(httpMethod, uri, Collect(map[], fields), end))
  {
    WireLayout(s, pos, httpMethod, uri, version, fields, line, block, next, end);
    ParseLayout(s, pos, line, next, httpMethod, uri, fields, end);
  }

  /** Round trip: "M SP U SP V CRLF", field lines and a blank line, wherever
      it stands in the stream and whatever follows it, parses back to M, U and
      exactly those fields (last one wins), with the reader left just after
      the blank line. */
  lemma RoundTrip(s: string, pos: nat, httpMethod: string, uri: string, version: string, fields: seq<(string, string)>)
    requires Token(httpMethod) && Token(uri) && Token(version) && httpMethod != [] && version != []
    requires forall i | 0 <= i < |fields| :: PlainField(fields[i])
    requires HoldsAt(s, pos, Wire(httpMethod, uri, version, fields))
    ensures Parse(s, pos) == Ok(Request(httpMethod, uri, Collect(map[], fields), pos + |Wire(httpMethod, uri, version, fields)|))
  {
    var line := RequestLineCore(httpMethod, uri, version) + "\r\n";
    var block := HeaderText(fields) + "\r\n";
    assert Wire(httpMethod, uri, version, fields) == line + block;
    WireParse(s, pos, httpMethod, uri, version, fields, line, block, pos + |line|, pos + |Wire(httpMethod, uri, version, fields)|);
  }

  /** One written request: what a client puts on the wire. */
  datatype Message = Message(httpMethod: string, uri: string, version: string, fields: seq<(string, string)>)

  /** A message that reads back as itself. */
  predicate WellWritten(m: Message)
  {
    Token(m.httpMethod) && Token(m.uri) && Token(m.version) && m.httpMethod != [] && m.version != []
    && forall i | 0 <= i < |m.fields| :: PlainField(m.fields[i])
  }

  /** Messages written back to back on one connection. */
  function Stream(ms: seq<Message>): string
  {
    if ms == [] then [] else Wire(ms[0].httpMethod, ms[0].uri, ms[0].version, ms[0].fields) + Stream(ms[1..])
  }

  /** The requests those messages should read as, each leaving the reader
      at the start of the next. */
  function Expected(ms: seq<Message>, pos: nat): (r: seq<Request>)
    ensures |r| == |ms|
  {
    if ms == [] then []
    else
      var m := ms[0];
      var end := pos + |Wire(m.httpMethod, m.uri, m.version, m.fields)|;
      [Request(m.httpMethod, m.uri, Collect(map[], m.fields), end)] + Expected(ms[1..], end)
  }

  /** The connection loop hands over back-to-back requests one by one, in the
      order they were written; when the stream ends with the last of them,
      the loop yields exactly those requests. */
  lemma {:induction false} ReadAllInOrder(s: string, pos: nat, ms: seq<Message>)
    requires pos <= |s| && forall i | 0 <= i < |ms| :: WellWritten(ms[i])
    requires HoldsAt(s, pos, Stream(ms))
    ensures |ms| <= |ReadAll(s, pos)| && ReadAll(s, pos)[..|ms|] == Expected(ms, pos)
    ensures pos + |Stream(ms)| == |s| ==> ReadAll(s, pos) == Expected(ms, pos)
    decreases |ms|
  {
    if ms == [] {
      if pos == |s| {
        NoLineNoRequest(s, pos);
      }
    } else {
      var m := ms[0];
      var w := Wire(m.httpMethod, m.uri, m.version, m.fields);
      assert WellWritten(m);
      MessageStep(s, pos, m, Stream(ms[1..]));
      ReadAllInOrder(s, pos + |w|, ms[1..]);
      var head := Request(m.httpMethod, m.uri, Collect(map[], m.fields), pos + |w|);
      assert Expected(ms, pos) == [head] + Expected(ms[1..], pos + |w|);
    }
  }

  /** A well-written message at the reader's position is the loop's next
      request, and the loop goes on just after it. */
  lemma MessageStep(s: string, pos: nat, m: Message, rest: string)
    requires pos <= |s| && WellWritten(m)
    requires HoldsAt(s, pos, Wire(m.httpMethod, m.uri, m.version, m.fields) + rest)
    ensures var end := pos + |Wire(m.httpMethod, m.uri, m.version, m.fields)|;
      end <= |s| && HoldsAt(s, end, rest)
      && ReadAll(s, pos) == [Request(m.httpMethod, m.uri, Collect(map[], m.fields), end)] + ReadAll(s, end)
  {
    var w := Wire(m.httpMethod, m.uri, m.version, m.fields);
    MessageParsed(s, pos, m, rest);
    ReadAllStep(s, pos, Request(m.httpMethod, m.uri, Collect(map[], m.fields), pos + |w|));
  }

  lemma MessageParsed(s: string, pos: nat, m: Message, rest: string)
    requires pos <= |s| && WellWritten(m)
    requires HoldsAt(s, pos, Wire(m.httpMethod, m.uri, m.version, m.fields) + rest)
    ensures var end := pos + |Wire(m.httpMethod, m.uri, m.version, m.fields)|;
      end <= |s| && HoldsAt(s, end, rest)
      && Parse(s, pos) == Ok(Request(m.httpMethod, m.uri, Collect(map[], m.fields), end))
  {
    HoldsAtSplit(s, pos, Wire(m.httpMethod, m.uri, m.version, m.fields), rest);
    RoundTrip(s, pos, m.httpMethod, m.uri, m.version, m.fields);
  }

  /** The loop yields nothing exactly when the first parse fails, and
      otherwise starts with the request that parse returned. */
  lemma ReadAllStops(s: string, pos: nat)
    requires pos <= |s|
    ensures ReadAll(s, pos) == [] <==> Parse(s, pos).Err?
    ensures Parse(s, pos).Ok? ==> ReadAll(s, pos)[0] == Parse(s, pos).value
  {
  }

  /** One turn of the loop: a parsed request, then the rest from where it
      left the reader. */
  lemma ReadAllStep(s: string, pos: nat, r: Request)
    requires pos <= |s| && Parse(s, pos) == Ok(r)
    ensures ReadAll(s, pos) == [r] + ReadAll(s, r.rest)
  {
  }

  /** A one-token request line fails before any header is read. */
  lemma MalformedExample()
    ensures Parse("BAD\r\n\r\n", 0) == Err(MalformedRequestLine)
    ensures ReadAll("BAD\r\n\r\n", 0) == []
  {
    NextLineAt("BAD\r\n\r\n", 0, "BAD\r\n");
    assert "BAD\r\n" == [] + "BAD" + "\r\n";
    TrimPadded([], "BAD", "\r\n", AsciiSpace);
    SplitNone("BAD", ' ');
  }
}
