/** Annotation persistence (backend/app/routers/annotations.py): the geometry checks, the
    per-upload JSON-lines file name, the tolerant reload and the append of a new record.
    The annotation directory is the map `files` from file name to text; JSON encoding and
    decoding are the parameters `encode` and `decode`, and `uuid4()` and the clock are the
    parameters `newId` and `now`. */
module Annotations {
  import opened Base
  import opened Text

  datatype Rect = Rect(x: real, y: real, w: real, h: real)

  datatype Poly = Poly(pts: seq<(real, real)>)

  datatype AnnotationPayload = AnnotationPayload(frameT: real, rect: Option<Rect>, poly: Option<Poly>,
                                                 jersey: Option<int>, labelText: Option<string>, notes: Option<string>)

  /** The stored record: the payload's fields plus `id` and `created_at`. */
  datatype AnnotationRecord = AnnotationRecord(payload: AnnotationPayload, id: string, createdAt: string)

  const PolyMinPoints := 3

  /** The request validation (a polygon of fewer than three points is refused with 422)
      followed by `validate_geometry` (neither a rectangle nor a polygon is refused with 400). */
  function CheckPayload(p: AnnotationPayload): (r: Outcome)
    ensures r.Pass? <==> (p.rect.Some? || p.poly.Some?) && (p.poly.Some? ==> |p.poly.value.pts| >= PolyMinPoints)
    ensures r.Fail? ==> r.error.HttpError? && r.error.status in {400, 422}
    ensures p.poly.Some? && |p.poly.value.pts| < PolyMinPoints ==> r.Fail? && r.error.status == 422
    ensures p.rect.None? && p.poly.None? ==> r == Fail(HttpError(400, "Annotation requires rect or poly geometry"))
  {
    if p.poly.Some? && |p.poly.value.pts| < PolyMinPoints then
      Fail(HttpError(422, "List should have at least 3 items after validation"))
    else if p.rect.None? && p.poly.None? then
      Fail(HttpError(400, "Annotation requires rect or poly geometry"))
    else Pass
  }

  /** A rectangle alone, a polygon alone and both together are all accepted: the check asks
      for at least one shape, not exactly one. */
  lemma BothShapesAccepted(frameT: real, rect: Rect, pts: seq<(real, real)>)
    requires |pts| >= PolyMinPoints
    ensures CheckPayload(AnnotationPayload(frameT, Some(rect), Some(Poly(pts)), None, None, None)).Pass?
  {
  }

  /** `_annotation_path`, as the file name inside the annotation directory. */
  function AnnotationPath(uploadId: string): (r: string)
    ensures '/' !in r
    ensures |r| == |uploadId| + 6 && r[|uploadId|..] == ".jsonl"
  {
    var name := ReplaceChar(uploadId, '/', '_') + ".jsonl";
    assert forall i :: 0 <= i < |name| ==> name[i] != '/';
    name
  }

  /** Distinct ids can share a file: "a/b" and "a_b" both map to "a_b.jsonl". */
  lemma SlashAndUnderscoreShareAFile()
    ensures AnnotationPath("a/b") == AnnotationPath("a_b")
  {
  }

  /** The lines a text-mode read yields: "\r" and "\r\n" end lines as "\n" does. */
  function Lines(content: string): seq<string>
  {
    Split(ReplaceChar(content, '\r', '\n'), '\n')
  }

  /** The records `_load_annotations` keeps from `lines`: each line is stripped, and blank
      lines and lines that do not decode are skipped. */
  function Parsed<J>(lines: seq<string>, decode: string -> Option<J>): seq<J>
  {
    if lines == [] then [] else Kept(lines[0], decode) + Parsed(lines[1..], decode)
  }

  /** What one line contributes: its record when the stripped line is non-blank and decodes. */
  function Kept<J>(line: string, decode: string -> Option<J>): (r: seq<J>)
    ensures |r| <= 1
  {
    var stripped := Strip(line);
    if stripped == "" || decode(stripped).None? then [] else [decode(stripped).value]
  }

  lemma {:induction false} ParsedConcat<J>(a: seq<string>, b: seq<string>, decode: string -> Option<J>)
    ensures Parsed(a + b, decode) == Parsed(a, decode) + Parsed(b, decode)
  {
    if a == [] {
      assert a + b == b;
    } else {
      assert (a + b)[0] == a[0] && (a + b)[1..] == a[1..] + b;
      ParsedConcat(a[1..], b, decode);
    }
  }

  /** A single line contributes its record when it is non-blank and decodes, else nothing. */
  lemma ParsedSingle<J>(line: string, decode: string -> Option<J>)
    ensures Parsed([line], decode) == Kept(line, decode)
  {
    assert [line][1..] == [];
  }

  /** One pass of the reading loop: strip, skip a blank line, keep what decodes. */
  method ParseLine<J>(line: string, decode: string -> Option<J>) returns (kept: seq<J>)
    ensures kept == Kept(line, decode)
  {
    var stripped := Strip(line);
    if stripped == "" {
      return [];
    }
    var decoded := decode(stripped);
    if decoded.None? {
      return [];
    }
    return [decoded.value];
  }

  /** Every kept record comes from a non-blank line that decodes to it, and their order is
      the file's. */
  lemma {:induction false} ParsedFromLines<J>(lines: seq<string>, decode: string -> Option<J>)
    ensures |Parsed(lines, decode)| <= |lines|
    ensures forall v :: v in Parsed(lines, decode) ==>
              exists i :: 0 <= i < |lines| && Strip(lines[i]) != "" && decode(Strip(lines[i])) == Some(v)
  {
    if lines != [] {
      ParsedFromLines(lines[1..], decode);
      forall v | v in Parsed(lines, decode)
        ensures exists i :: 0 <= i < |lines| && Strip(lines[i]) != "" && decode(Strip(lines[i])) == Some(v)
      {
        if v !in Parsed(lines[1..], decode) {
          assert Strip(lines[0]) != "" && decode(Strip(lines[0])) == Some(v);
        } else {
          var i :| 0 <= i < |lines[1..]| && Strip(lines[1..][i]) != "" && decode(Strip(lines[1..][i])) == Some(v);
          assert lines[i + 1] == lines[1..][i];
        }
      }
    }
  }

  lemma {:induction false} SplitConcat(x: string, y: string, c: char)
    ensures Split(x + [c] + y, c) == Split(x, c) + Split(y, c)
  {
    if x == [] {
      assert x + [c] + y == [c] + y;
      SplitCons(c, y, c);
    } else {
      var x1 := x[1..];
      assert x == [x[0]] + x1;
      assert x + [c] + y == [x[0]] + (x1 + [c] + y);
      SplitConcat(x1, y, c);
      SplitConcatStep(x[0], x1, y, c);
    }
  }

  /** The inductive step of `SplitConcat`: one more character in front. */
  lemma SplitConcatStep(ch: char, x1: string, y: string, c: char)
    requires Split(x1 + [c] + y, c) == Split(x1, c) + Split(y, c)
    ensures Split([ch] + (x1 + [c] + y), c) == Split([ch] + x1, c) + Split(y, c)
  {
    SplitCons(ch, x1 + [c] + y, c);
    SplitCons(ch, x1, c);
    if ch == c {
      PiecesPrepend("", Split(x1, c), Split(y, c));
    } else {
      PiecesMerge([ch], Split(x1, c), Split(y, c));
    }
  }

  lemma PiecesPrepend(piece: string, head: seq<string>, tail: seq<string>)
    ensures [piece] + (head + tail) == ([piece] + head) + tail
  {
  }

  lemma PiecesMerge(prefix: string, head: seq<string>, tail: seq<string>)
    requires |head| >= 1
    ensures [prefix + (head + tail)[0]] + (head + tail)[1..] == ([prefix + head[0]] + head[1..]) + tail
  {
    assert (head + tail)[0] == head[0] && (head + tail)[1..] == head[1..] + tail;
  }

  /** Splitting a text that starts with `ch` in terms of splitting the rest. */
  lemma SplitCons(ch: char, t: string, c: char)
    ensures Split([ch] + t, c) == if ch == c then [""] + Split(t, c) else [[ch] + Split(t, c)[0]] + Split(t, c)[1..]
  {
    assert ([ch] + t)[0] == ch && ([ch] + t)[1..] == t;
  }

  lemma ReplaceCharConcat(a: string, b: string, x: char, y: char)
    ensures ReplaceChar(a + b, x, y) == ReplaceChar(a, x, y) + ReplaceChar(b, x, y)
  {
  }

  /** A file the store writes: empty or ending with a line break. */
  predicate Terminated(content: string)
  {
    content == "" || content[|content| - 1] == '\n'
  }

  /** Translating "\r" leaves an appended plain line and its line break as they are. */
  lemma TranslateAppend(content: string, line: string)
    requires '\r' !in line
    ensures ReplaceChar(content + line + "\n", '\r', '\n') == ReplaceChar(content, '\r', '\n') + line + "\n"
    ensures Terminated(content) ==> Terminated(ReplaceChar(content, '\r', '\n'))
  {
    ReplaceCharConcat(content + line, "\n", '\r', '\n');
    ReplaceCharConcat(content, line, '\r', '\n');
    assert ReplaceChar(line, '\r', '\n') == line;
    assert ReplaceChar("\n", '\r', '\n') == "\n";
  }

  /** Splitting a line and its line break gives the line and an empty last piece. */
  lemma SplitLine(line: string)
    requires '\n' !in line
    ensures Split(line + "\n", '\n') == [line, ""]
  {
    SplitAtSeparator(line, "", '\n');
    assert line + "\n" == line + ['\n'] + "";
  }

  /** A terminated text splits into some lines and an empty last piece, and appending a line
      and its break puts that line before the empty piece. */
  lemma SplitAppend(c: string, line: string)
    requires Terminated(c)
    requires '\n' !in line
    ensures var old_ := Split(c, '\n');
            && old_[|old_| - 1] == ""
            && Split(c + line + "\n", '\n') == old_[..|old_| - 1] + [line, ""]
  {
    SplitLine(line);
    if c == "" {
      assert c + line + "\n" == line + "\n";
    } else {
      var c0 := c[..|c| - 1];
      assert c == c0 + ['\n'] + "";
      assert c + line + "\n" == c0 + ['\n'] + (line + "\n");
      SplitConcat(c0, line + "\n", '\n');
      SplitConcat(c0, "", '\n');
      var old_ := Split(c, '\n');
      assert old_[..|old_| - 1] == Split(c0, '\n');
    }
  }

  /** So a terminated file reads as some lines followed by an empty last piece, and appending
      a line without line breaks puts that line before the empty piece. */
  lemma LinesAppend(content: string, line: string)
    requires Terminated(content)
    requires '\n' !in line && '\r' !in line
    ensures var old_ := Lines(content);
            && old_[|old_| - 1] == ""
            && Lines(content + line + "\n") == old_[..|old_| - 1] + [line, ""]
  {
    TranslateAppend(content, line);
    SplitAppend(ReplaceChar(content, '\r', '\n'), line);
  }

  /** Inserting a line before the empty last piece adds exactly that line's record. */
  lemma ParsedInsert<J>(prefix: seq<string>, line: string, decode: string -> Option<J>)
    ensures Parsed(prefix + [line, ""], decode) == Parsed(prefix + [""], decode) + Kept(line, decode)
  {
    ParsedConcat(prefix, [line, ""], decode);
    ParsedLastLine(line, decode);
    ParsedDropBlank(prefix, decode);
  }

  /** A blank last piece contributes nothing. */
  lemma ParsedBlank<J>(decode: string -> Option<J>)
    ensures Parsed([""], decode) == []
  {
    ParsedSingle("", decode);
    assert Strip("") == "";
  }

  lemma ParsedDropBlank<J>(prefix: seq<string>, decode: string -> Option<J>)
    ensures Parsed(prefix + [""], decode) == Parsed(prefix, decode)
  {
    ParsedConcat(prefix, [""], decode);
    ParsedBlank(decode);
  }

  lemma ParsedLastLine<J>(line: string, decode: string -> Option<J>)
    ensures Parsed([line, ""], decode) == Kept(line, decode)
  {
    assert [line, ""][1..] == [""];
    ParsedBlank(decode);
  }

  /** Appending one line to a terminated file adds exactly that line's record, if any, to
      what a reload returns. */
  lemma AppendLine<J>(content: string, line: string, decode: string -> Option<J>)
    requires Terminated(content)
    requires '\n' !in line && '\r' !in line
    ensures Parsed(Lines(content + line + "\n"), decode) == Parsed(Lines(content), decode) + Kept(line, decode)
  {
    LinesAppend(content, line);
    var old_ := Lines(content);
    var prefix := old_[..|old_| - 1];
    assert old_ == prefix + [""];
    ParsedInsert(prefix, line, decode);
  }

  /** The reading loop of `_load_annotations` over the file's lines. */
  method ParseLines<J>(lines: seq<string>, decode: string -> Option<J>) returns (records: seq<J>)
    ensures records == Parsed(lines, decode)
  {
    records := [];
    var i := 0;
    while i < |lines|
      invariant 0 <= i <= |lines|
      invariant records == Parsed(lines[..i], decode)
    {
      var kept := ParseLine(lines[i], decode);
      records := records + kept;
      ParsedStep(lines, i, decode);
      i := i + 1;
    }
    assert lines[..|lines|] == lines;
  }

  /** One more line read: the records so far plus what that line contributes. */
  lemma ParsedStep<J>(lines: seq<string>, i: nat, decode: string -> Option<J>)
    requires i < |lines|
    ensures Parsed(lines[..i + 1], decode) == Parsed(lines[..i], decode) + Kept(lines[i], decode)
  {
    assert lines[..i + 1] == lines[..i] + [lines[i]];
    ParsedConcat(lines[..i], [lines[i]], decode);
    ParsedSingle(lines[i], decode);
  }

  class AnnotationStore {
    var files: map<string, string>

    ghost predicate Valid()
      reads this
    {
      forall name :: name in files ==> Terminated(files[name])
    }

    constructor ()
      ensures Valid() && files == map[]
    {
      files := map[];
    }

    /** `_load_annotations`: nothing for a missing file, otherwise the decodable non-blank
        lines in file order. */
    method LoadAnnotations<J>(uploadId: string, decode: string -> Option<J>) returns (records: seq<J>)
      ensures AnnotationPath(uploadId) !in files ==> records == []
      ensures AnnotationPath(uploadId) in files ==> records == Parsed(Lines(files[AnnotationPath(uploadId)]), decode)
    {
      var path := AnnotationPath(uploadId);
      if path !in files {
        return [];
      }
      records := ParseLines(Lines(files[path]), decode);
    }

    /** `create_annotation`: after the payload checks, the record with its new id and time is
        appended as one line to the upload's file (created if missing) and returned; no other
        file changes. */
    method CreateAnnotation(uploadId: string, payload: AnnotationPayload, newId: string, now: string,
                            encode: AnnotationRecord -> string) returns (r: Result<AnnotationRecord>)
      requires Valid()
      modifies this
      ensures Valid()
      ensures CheckPayload(payload).Fail? ==> r == Err(CheckPayload(payload).error) && files == old(files)
      ensures CheckPayload(payload).Pass? ==>
                var path := AnnotationPath(uploadId);
                var before := if path in old(files) then old(files)[path] else "";
                && r == Ok(AnnotationRecord(payload, newId, now))
                && files == old(files)[path := before + encode(r.value) + "\n"]
    {
      var check := CheckPayload(payload);
      if check.Fail? {
        return Err(check.error);
      }
      var record := AnnotationRecord(payload, newId, now);
      var path := AnnotationPath(uploadId);
      var before := if path in files then files[path] else "";
      files := files[path := before + encode(record) + "\n"];
      return Ok(record);
    }
  }

  /** Create then list: the list gains exactly the new record at the end, when the encoding is
      one line that decodes back to the record's JSON value `dump(record)`. */
  lemma CreateThenList<J>(content: string, record: AnnotationRecord, encode: AnnotationRecord -> string,
                          decode: string -> Option<J>, dump: AnnotationRecord -> J)
    requires Terminated(content)
    requires '\n' !in encode(record) && '\r' !in encode(record)
    requires Strip(encode(record)) != "" && decode(Strip(encode(record))) == Some(dump(record))
    ensures Parsed(Lines(content + encode(record) + "\n"), decode) == Parsed(Lines(content), decode) + [dump(record)]
  {
    AppendLine(content, encode(record), decode);
  }
}
