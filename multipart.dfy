/**
  `encode_multipart_formdata`: a multipart/form-data body (section 4.1 of
  RFC 7578) whose parts are separated by the delimiter lines of section 5.1.1
  of RFC 2046. The byte buffer of the original is the local sequence `body`,
  appended to in two loops: first the form fields, then the files.

  What the operating system tells about a file (its contents, the MIME type
  `mimetypes.guess_type` guesses for its path) and the random `uuid4().hex`
  are inputs, gathered in `Env`.
 */
module Multipart {
  import opened Values

  const CRLF := "\r\n"
  const DefaultMimeType := "application/octet-stream"
  const BoundaryPrefix := "GoPubBotBoundary"

  type Header = (string, string)

  /** Inputs from the platform: a fresh uuid hex, file contents by path, guessed MIME types by path. */
  datatype Env = Env(uuidHex: string, disk: map<string, seq<uint8>>, guesses: map<string, string>)

  // ---------------------------------------------------------------------------
  // Header block

  function HeaderLine(h: Header): string {
    h.0 + ": " + h.1
  }

  function HeaderLines(headers: seq<Header>): (lines: seq<string>)
    ensures |lines| == |headers|
    ensures forall k :: 0 <= k < |headers| ==> lines[k] == HeaderLine(headers[k])
  {
    seq(|headers|, k requires 0 <= k < |headers| => HeaderLine(headers[k]))
  }

  /** The header block of a part: every `Name: Value` line ends in CRLF, then one more CRLF. */
  function HeaderBlock(headers: seq<Header>): string {
    Terminated(HeaderLines(headers), CRLF) + CRLF
  }

  /** A non-empty header block ends in an empty line, CRLF CRLF; an empty one is a lone CRLF. */
  lemma {:induction false} HeaderBlockEndsInBlankLine(headers: seq<Header>)
    ensures headers == [] ==> HeaderBlock(headers) == CRLF
    ensures |headers| > 0 ==> |HeaderBlock(headers)| >= 4
    ensures |headers| > 0 ==> HeaderBlock(headers)[|HeaderBlock(headers)| - 4..] == "\r\n\r\n"
  {
    if |headers| > 0 {
      TerminatedEndsWith(HeaderLines(headers), CRLF);
    }
  }

  lemma {:induction false} TerminatedEndsWith(parts: seq<string>, sep: string)
    requires |parts| > 0
    ensures |Terminated(parts, sep)| >= |sep|
    ensures Terminated(parts, sep)[|Terminated(parts, sep)| - |sep|..] == sep
  {
    if |parts| > 1 {
      TerminatedEndsWith(parts[1..], sep);
    }
  }

  /** `render_headers`: collects the lines in a list, adds a CRLF entry, joins with CRLF and encodes. */
  method RenderHeaders(headers: seq<Header>) returns (out: seq<uint8>)
    ensures out == Encode(HeaderBlock(headers))
  {
    var lines: seq<string> := [];
    for i := 0 to |headers|
      invariant lines == HeaderLines(headers[..i])
    {
      lines := lines + [HeaderLine(headers[i])];
    }
    assert headers[..|headers|] == headers;
    JoinWithLast(lines, CRLF, CRLF);
    out := Encode(Join(lines + [CRLF], CRLF));
  }

  // ---------------------------------------------------------------------------
  // Parts

  /** The delimiter line that opens every part. */
  function Delimiter(boundary: string): string {
    "--" + boundary + CRLF
  }

  /** The close-delimiter line that ends the body. */
  function CloseDelimiter(boundary: string): string {
    "--" + boundary + "--" + CRLF
  }

  function ContentType(boundary: string): string {
    "multipart/form-data; boundary=" + boundary
  }

  /** The boundary used when none is given: a fixed prefix and a fresh uuid in hex. */
  function ChooseBoundary(boundary: Option<string>, env: Env): (b: string)
    ensures boundary.None? ==> b == BoundaryPrefix + env.uuidHex
    ensures boundary.Some? ==> b == boundary.value
  {
    match boundary
    case Some(b) => b
    case None => BoundaryPrefix + env.uuidHex
  }

  /**
    How a field value is written. `int` and `float` values go through `str`;
    since `bool` is a subclass of `int`, a bool takes that branch too and is
    written `True`/`False`. Strings are written as they are; any other value
    makes the UTF-8 stream writer raise TypeError.
   */
  function RenderValue(v: Json): (r: Result<string>)
    ensures r.Ok? <==> v.JInt? || v.JBool? || v.JStr?
    ensures v.JStr? ==> r == Ok(v.s)
    ensures v.JInt? ==> r == Ok(IntToString(v.i))
  {
    if AsInt(v).Some? then Ok(NumberToString(v))
    else if v.JStr? then Ok(v.s)
    else Err(WrongType)
  }

  /** The branch order evidently intended: bools become `true`/`false`, everything else as before. */
  function RenderValueIntended(v: Json): (r: Result<string>)
    ensures v == JBool(true) ==> r == Ok("true")
    ensures v == JBool(false) ==> r == Ok("false")
    ensures !v.JBool? ==> r == RenderValue(v)
  {
    if v.JBool? then Ok(if v.b then "true" else "false") else RenderValue(v)
  }

  /** As written, the `'true'/'false'` branch is never taken: `True` is written `True`. */
  lemma BoolBranchUnreachable()
    ensures RenderValue(JBool(true)) == Ok("True")
    ensures RenderValue(JBool(false)) == Ok("False")
    ensures RenderValueIntended(JBool(true)) != RenderValue(JBool(true))
  {
  }

  /** `os.path.basename` on a POSIX path: what follows the last slash. */
  function BaseName(path: string): (name: string)
    ensures '/' !in name
    ensures |name| <= |path| && name == path[|path| - |name|..]
    ensures '/' !in path ==> name == path
    ensures |name| < |path| ==> path[|path| - |name| - 1] == '/'
  {
    if |path| == 0 then ""
    else if path[|path| - 1] == '/' then ""
    else
      var front := BaseName(path[..|path| - 1]);
      assert path[..|path| - 1][|path| - 1 - |front|..] == path[|path| - 1 - |front|..|path| - 1];
      assert |front| < |path| - 1 ==> path[..|path| - 1][|path| - 1 - |front| - 1] == path[|path| - |front| - 2];
      front + [path[|path| - 1]]
  }

  /** `mimetypes.guess_type(path)[0] or DEFAULT_MIME_TYPE`: a missing or empty guess falls back. */
  function MimeTypeFor(path: string, env: Env): (t: string)
    ensures path in env.guesses && env.guesses[path] != "" ==> t == env.guesses[path]
    ensures !(path in env.guesses && env.guesses[path] != "") ==> t == DefaultMimeType
  {
    if path in env.guesses && env.guesses[path] != "" then env.guesses[path] else DefaultMimeType
  }

  function FieldHeaders(name: string): seq<Header> {
    [("Content-Disposition", "form-data; name=\"" + name + "\"")]
  }

  function FileHeaders(name: string, fileName: string, mimeType: string): seq<Header> {
    [("Content-Disposition", "form-data; name=\"" + name + "\"; filename=\"" + fileName + "\""),
     ("Content-Type", mimeType)]
  }

  /** One form-field part: delimiter, header block, the value, CRLF. */
  function FieldPart(boundary: string, name: string, v: Json): Result<seq<uint8>> {
    var text := RenderValue(v);
    if text.Err? then Err(text.error)
    else Ok(Encode(Delimiter(boundary)) + Encode(HeaderBlock(FieldHeaders(name)))
            + Encode(text.value) + Encode(CRLF))
  }

  /** One file part: delimiter, header block, the file's bytes, CRLF. */
  function FilePart(boundary: string, name: string, path: Json, env: Env): Result<seq<uint8>> {
    if !path.JStr? then Err(WrongType)
    else if path.s !in env.disk then Err(FileNotFound(path.s))
    else
      Ok(Encode(Delimiter(boundary))
         + Encode(HeaderBlock(FileHeaders(name, BaseName(path.s), MimeTypeFor(path.s, env))))
         + env.disk[path.s] + Encode(CRLF))
  }

  // ---------------------------------------------------------------------------
  // Runs of parts

  /** The bytes one loop iteration writes, or the exception it raises. */
  type Part = Result<seq<uint8>>

  /** Parts written one after another: all their bytes in order, or the error of the first part that fails. */
  function Concat(parts: seq<Part>): Part {
    if |parts| == 0 then Ok([])
    else
      var front := Concat(parts[..|parts| - 1]);
      var last := parts[|parts| - 1];
      if front.Err? then front else if last.Err? then last else Ok(front.value + last.value)
  }

  /** A run of parts is written iff every part is. */
  lemma {:induction false} ConcatOkIff(parts: seq<Part>)
    ensures Concat(parts).Ok? <==> forall k :: 0 <= k < |parts| ==> parts[k].Ok?
  {
    if |parts| > 0 {
      var front := parts[..|parts| - 1];
      ConcatOkIff(front);
      assert forall k :: 0 <= k < |front| ==> front[k] == parts[k];
    }
  }

  /** The first part that fails ends the run with its error; the parts after it are not looked at. */
  lemma {:induction false} ConcatFirstError(parts: seq<Part>, i: nat)
    requires i < |parts| && Concat(parts[..i]).Ok? && parts[i].Err?
    ensures Concat(parts) == parts[i]
  {
    var front := parts[..|parts| - 1];
    if i + 1 == |parts| {
      assert front == parts[..i];
    } else {
      assert front[..i] == parts[..i] && front[i] == parts[i];
      ConcatFirstError(front, i);
    }
  }

  /** A part that is written is appended after the bytes of the parts before it. */
  lemma ConcatStep(parts: seq<Part>, i: nat)
    requires i < |parts| && Concat(parts[..i]).Ok? && parts[i].Ok?
    ensures Concat(parts[..i + 1]) == Ok(Concat(parts[..i]).value + parts[i].value)
  {
    assert parts[..i + 1][..i] == parts[..i];
  }

  lemma PrefixExtends(d: seq<uint8>, a: seq<uint8>, b: seq<uint8>)
    requires d <= a
    ensures d <= a + b
  {
  }

  lemma SuffixOfConcat(a: seq<uint8>, c: seq<uint8>)
    ensures |a + c| >= |c| && (a + c)[|a + c| - |c|..] == c
  {
  }

  /** When every part begins with `prefix`, so does a non-empty run of them. */
  lemma {:induction false} ConcatStartsWith(parts: seq<Part>, prefix: seq<uint8>)
    requires |parts| > 0 && Concat(parts).Ok?
    requires forall k :: 0 <= k < |parts| && parts[k].Ok? ==> prefix <= parts[k].value
    ensures prefix <= Concat(parts).value
  {
    var n := |parts|;
    var front := parts[..n - 1];
    if n > 1 {
      assert forall k :: 0 <= k < |front| ==> front[k] == parts[k];
      ConcatStartsWith(front, prefix);
      PrefixExtends(prefix, Concat(front).value, parts[n - 1].value);
    } else {
      assert front == [];
      assert Concat(parts).value == [] + parts[0].value;
    }
  }

  // ---------------------------------------------------------------------------
  // The body

  /** The part of each field, in the order of the fields. */
  function FieldPartList(boundary: string, fields: seq<(string, Json)>): (r: seq<Part>)
    ensures |r| == |fields|
    ensures forall k :: 0 <= k < |fields| ==> r[k] == FieldPart(boundary, fields[k].0, fields[k].1)
  {
    seq(|fields|, k requires 0 <= k < |fields| => FieldPart(boundary, fields[k].0, fields[k].1))
  }

  /** The part of each file, in the order of the files. */
  function FilePartList(boundary: string, files: seq<(string, Json)>, env: Env): (r: seq<Part>)
    ensures |r| == |files|
    ensures forall k :: 0 <= k < |files| ==> r[k] == FilePart(boundary, files[k].0, files[k].1, env)
  {
    seq(|files|, k requires 0 <= k < |files| => FilePart(boundary, files[k].0, files[k].1, env))
  }

  /** All field parts in order, or the error of the first field that cannot be written. */
  function FieldParts(boundary: string, fields: seq<(string, Json)>): Part {
    Concat(FieldPartList(boundary, fields))
  }

  /** All file parts in order, or the error of the first file that cannot be written. */
  function FileParts(boundary: string, files: seq<(string, Json)>, env: Env): Part {
    Concat(FilePartList(boundary, files, env))
  }

  /** The whole body: field parts, then file parts, then the close delimiter. */
  function Body(boundary: string, fields: seq<(string, Json)>, files: seq<(string, Json)>, env: Env): Part {
    var f :- FieldParts(boundary, fields);
    var g :- FileParts(boundary, files, env);
    Ok(f + g + Encode(CloseDelimiter(boundary)))
  }

  /** The result of `encode_multipart_formdata(params, files, boundary)`: the body and its content type. */
  function Encoded(params: Option<seq<(string, Json)>>, files: seq<(string, Json)>,
                   boundary: Option<string>, env: Env): Result<(seq<uint8>, string)>
  {
    var b := ChooseBoundary(boundary, env);
    if params.None? then Err(AttributeError("items"))
    else
      var body :- Body(b, params.value, files, env);
      Ok((body, ContentType(b)))
  }

  // ---------------------------------------------------------------------------
  // Properties of the layout

  lemma FieldPartOpens(boundary: string, name: string, v: Json)
    requires FieldPart(boundary, name, v).Ok?
    ensures Encode(Delimiter(boundary)) <= FieldPart(boundary, name, v).value
  {
    var d := Encode(Delimiter(boundary));
    var h := Encode(HeaderBlock(FieldHeaders(name)));
    var t := Encode(RenderValue(v).value);
    PrefixExtends(d, d, h);
    PrefixExtends(d, d + h, t);
    PrefixExtends(d, d + h + t, Encode(CRLF));
  }

  lemma FilePartOpens(boundary: string, name: string, path: Json, env: Env)
    requires FilePart(boundary, name, path, env).Ok?
    ensures Encode(Delimiter(boundary)) <= FilePart(boundary, name, path, env).value
  {
    var d := Encode(Delimiter(boundary));
    var h := Encode(HeaderBlock(FileHeaders(name, BaseName(path.s), MimeTypeFor(path.s, env))));
    var t := env.disk[path.s];
    PrefixExtends(d, d, h);
    PrefixExtends(d, d + h, t);
    PrefixExtends(d, d + h + t, Encode(CRLF));
  }

  /** Every field part opens with the delimiter line, and so does a non-empty run of them. */
  lemma FieldPartsOpenWithDelimiter(boundary: string, fields: seq<(string, Json)>)
    requires |fields| > 0 && FieldParts(boundary, fields).Ok?
    ensures Encode(Delimiter(boundary)) <= FieldParts(boundary, fields).value
  {
    var parts := FieldPartList(boundary, fields);
    forall k | 0 <= k < |parts| && parts[k].Ok?
      ensures Encode(Delimiter(boundary)) <= parts[k].value
    {
      FieldPartOpens(boundary, fields[k].0, fields[k].1);
    }
    ConcatStartsWith(parts, Encode(Delimiter(boundary)));
  }

  /** Every file part opens with the delimiter line, and so does a non-empty run of them. */
  lemma FilePartsOpenWithDelimiter(boundary: string, files: seq<(string, Json)>, env: Env)
    requires |files| > 0 && FileParts(boundary, files, env).Ok?
    ensures Encode(Delimiter(boundary)) <= FileParts(boundary, files, env).value
  {
    var parts := FilePartList(boundary, files, env);
    forall k | 0 <= k < |parts| && parts[k].Ok?
      ensures Encode(Delimiter(boundary)) <= parts[k].value
    {
      FilePartOpens(boundary, files[k].0, files[k].1, env);
    }
    ConcatStartsWith(parts, Encode(Delimiter(boundary)));
  }

  /**
    The framing of a body: it opens with the delimiter line when it has any
    part, consists of the close delimiter alone when it has none, and always
    ends with the close delimiter.
   */
  lemma BodyFraming(boundary: string, fields: seq<(string, Json)>, files: seq<(string, Json)>, env: Env)
    requires Body(boundary, fields, files, env).Ok?
    ensures var body := Body(boundary, fields, files, env).value;
      && |body| >= |Encode(CloseDelimiter(boundary))|
      && body[|body| - |Encode(CloseDelimiter(boundary))|..] == Encode(CloseDelimiter(boundary))
      && (|fields| + |files| > 0 ==> Encode(Delimiter(boundary)) <= body)
      && (|fields| + |files| == 0 ==> body == Encode(CloseDelimiter(boundary)))
  {
    var d := Encode(Delimiter(boundary));
    var f := FieldParts(boundary, fields).value;
    var g := FileParts(boundary, files, env).value;
    var c := Encode(CloseDelimiter(boundary));
    assert Body(boundary, fields, files, env).value == f + g + c;
    SuffixOfConcat(f + g, c);
    if |fields| > 0 {
      FieldPartsOpenWithDelimiter(boundary, fields);
      PrefixExtends(d, f, g);
      PrefixExtends(d, f + g, c);
    } else {
      assert FieldPartList(boundary, fields) == [];
      assert f + g == g;
      if |files| > 0 {
        FilePartsOpenWithDelimiter(boundary, files, env);
        PrefixExtends(d, g, c);
      } else {
        assert FilePartList(boundary, files, env) == [];
        assert g + c == c;
      }
    }
  }

  /** The field parts fail exactly when some field value cannot be rendered. */
  lemma FieldPartsOkIff(boundary: string, fields: seq<(string, Json)>)
    ensures FieldParts(boundary, fields).Ok?
      <==> forall k :: 0 <= k < |fields| ==> RenderValue(fields[k].1).Ok?
  {
    ConcatOkIff(FieldPartList(boundary, fields));
  }

  /** A file path that can be opened: a string naming a file on disk. */
  predicate Readable(path: Json, env: Env) {
    path.JStr? && path.s in env.disk
  }

  /** The file parts fail exactly when some path cannot be opened. */
  lemma FilePartsOkIff(boundary: string, files: seq<(string, Json)>, env: Env)
    ensures FileParts(boundary, files, env).Ok?
      <==> forall k :: 0 <= k < |files| ==> Readable(files[k].1, env)
  {
    ConcatOkIff(FilePartList(boundary, files, env));
  }

  // ---------------------------------------------------------------------------
  // The encoder

  /** One iteration of the first loop: the bytes it writes for a field, or the error it raises. */
  method WriteFieldPart(b: string, name: string, value: Json) returns (r: Part)
    ensures r == FieldPart(b, name, value)
  {
    var part := Encode(Delimiter(b));
    var head := RenderHeaders(FieldHeaders(name));
    part := part + head;
    var text := RenderValue(value);
    if text.Err? {
      return Err(text.error);
    }
    part := part + Encode(text.value) + Encode(CRLF);
    r := Ok(part);
  }

  /** One iteration of the second loop: the bytes it writes for a file, or the error it raises. */
  method WriteFilePart(b: string, name: string, path: Json, env: Env) returns (r: Part)
    ensures r == FilePart(b, name, path, env)
  {
    var part := Encode(Delimiter(b));
    if !path.JStr? {
      return Err(WrongType);
    }
    var head := RenderHeaders(FileHeaders(name, BaseName(path.s), MimeTypeFor(path.s, env)));
    part := part + head;
    if path.s !in env.disk {
      return Err(FileNotFound(path.s));
    }
    part := part + env.disk[path.s] + Encode(CRLF);
    r := Ok(part);
  }

  /** The first loop: writes every field part to the buffer, stopping at the first value that cannot be written. */
  method WriteFieldParts(b: string, fields: seq<(string, Json)>) returns (r: Part)
    ensures r == FieldParts(b, fields)
  {
    ghost var parts := FieldPartList(b, fields);
    var body: seq<uint8> := [];
    for i := 0 to |fields|
      invariant Concat(parts[..i]) == Ok(body)
    {
      var part := WriteFieldPart(b, fields[i].0, fields[i].1);
      if part.Err? {
        ConcatFirstError(parts, i);
        return part;
      }
      ConcatStep(parts, i);
      body := body + part.value;
    }
    assert parts[..|fields|] == parts;
    r := Ok(body);
  }

  /** The second loop: writes every file part, stopping at the first file that cannot be read. */
  method WriteFileParts(b: string, files: seq<(string, Json)>, env: Env) returns (r: Part)
    ensures r == FileParts(b, files, env)
  {
    ghost var parts := FilePartList(b, files, env);
    var body: seq<uint8> := [];
    for i := 0 to |files|
      invariant Concat(parts[..i]) == Ok(body)
    {
      var part := WriteFilePart(b, files[i].0, files[i].1, env);
      if part.Err? {
        ConcatFirstError(parts, i);
        return part;
      }
      ConcatStep(parts, i);
      body := body + part.value;
    }
    assert parts[..|files|] == parts;
    r := Ok(body);
  }

  /** `encode_multipart_formdata(params, files, boundary)`. */
  method EncodeMultipartFormData(params: Option<seq<(string, Json)>>, files: seq<(string, Json)>,
                                 boundary: Option<string>, env: Env)
    returns (r: Result<(seq<uint8>, string)>)
    ensures r == Encoded(params, files, boundary, env)
    ensures r.Ok? ==> r.value.1 == "multipart/form-data; boundary=" + ChooseBoundary(boundary, env)
  {
    var b := ChooseBoundary(boundary, env);
    if params.None? {
      return Err(AttributeError("items"));
    }
    var fieldBytes := WriteFieldParts(b, params.value);
    if fieldBytes.Err? {
      return Err(fieldBytes.error);
    }
    var fileBytes := WriteFileParts(b, files, env);
    if fileBytes.Err? {
      return Err(fileBytes.error);
    }
    r := Ok((fieldBytes.value + fileBytes.value + Encode(CloseDelimiter(b)), ContentType(b)));
  }
}
