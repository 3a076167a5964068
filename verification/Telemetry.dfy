/**
 The replay loader of apps/pitgun-cli/src/replay.rs. Parsing, canonical encoding and UTF-8 validity
 belong to libraries and are parameters.
 */
module Telemetry {
  import opened Binary
  import opened Results

  const LF: Byte := 10
  const CR: Byte := 13

  /** What the libraries provide for one record type. */
  datatype Codec<!R(==)> = Codec(utf8: Bytes -> bool, parse: Bytes -> Option<R>, encode: R -> Option<Bytes>)

  function ParseCanonical<R(==, !new)>(codec: Codec<R>, bytes: Bytes): (r: Result<R>)
    ensures r.Ok? ==> codec.parse(bytes) == Some(r.value) && codec.encode(r.value) == Some(bytes)
    ensures forall v :: codec.parse(bytes) == Some(v) && codec.encode(v) == Some(bytes) ==> r == Ok(v)
  {
    match codec.parse(bytes)
    case None => Err("invalid record")
    case Some(value) =>
      match codec.encode(value)
      case None => Err("cannot canonicalize record")
      case Some(canonical) => if canonical != bytes then Err("record is not canonically encoded") else Ok(value)
  }

  // ----- Lines -----

  /** Index of the first line feed, or the length. */
  function LineEnd(b: Bytes): (n: nat)
    ensures n <= |b|
    ensures n < |b| ==> b[n] == LF
    ensures LF !in b[..n]
  {
    if b == [] || b[0] == LF then 0 else
      assert b[..LineEnd(b[1..]) + 1] == [b[0]] + b[1..][..LineEnd(b[1..])];
      LineEnd(b[1..]) + 1
  }

  function StripCr(line: Bytes): Bytes {
    if line != [] && line[|line| - 1] == CR then line[..|line| - 1] else line
  }

  /** Lines without their terminators; a final piece without a line feed is kept as it is. */
  function Lines(b: Bytes): seq<Bytes> {
    if b == [] then [] else
      var n := LineEnd(b);
      if n == |b| then [b] else [StripCr(b[..n])] + Lines(b[n + 1..])
  }

  function Terminator(crlf: bool): Bytes { if crlf then [CR, LF] else [LF] }

  /** Lines written out again, each with its own terminator. */
  function Render(lines: seq<Bytes>, crlf: seq<bool>): Bytes
    requires |lines| == |crlf|
  {
    if lines == [] then [] else lines[0] + Terminator(crlf[0]) + Render(lines[1..], crlf[1..])
  }

  /** Which terminator each line of a text has. */
  function Terminators(b: Bytes): seq<bool> {
    if b == [] then [] else
      var n := LineEnd(b);
      if n == |b| then [false] else [n > 0 && b[n - 1] == CR] + Terminators(b[n + 1..])
  }

  predicate Terminated(b: Bytes) { b == [] || b[|b| - 1] == LF }

  lemma LineEndInside(b: Bytes)
    requires Terminated(b) && b != []
    ensures LineEnd(b) < |b|
  {
    assert b[..|b|] == b && b[|b| - 1] in b;
  }

  lemma LineAndTerminator(b: Bytes, n: nat)
    requires n < |b| && b[n] == LF
    ensures StripCr(b[..n]) + Terminator(n > 0 && b[n - 1] == CR) == b[..n + 1]
  {
  }

  lemma {:induction false} RenderLines(b: Bytes)
    requires Terminated(b)
    ensures |Lines(b)| == |Terminators(b)|
    ensures Render(Lines(b), Terminators(b)) == b
  {
    hide *;
    if b == [] {
      NoLines();
    } else {
      var n := LineEnd(b);
      LineEndInside(b);
      LineAndTerminator(b, n);
      FirstUnfolds(b);
      RestTerminated(b, n);
      RenderLines(b[n + 1..]);
      RenderCons(StripCr(b[..n]), n > 0 && b[n - 1] == CR, Lines(b[n + 1..]), Terminators(b[n + 1..]));
    }
  }

  lemma NoLines()
    ensures Lines([]) == [] && Terminators([]) == [] && Render([], []) == []
  {
  }

  lemma RestTerminated(b: Bytes, n: nat)
    requires Terminated(b) && n < |b|
    ensures Terminated(b[n + 1..])
    ensures b[..n + 1] + b[n + 1..] == b
  {
  }

  lemma FirstUnfolds(b: Bytes)
    requires b != [] && LineEnd(b) < |b|
    ensures var n := LineEnd(b);
      && Lines(b) == [StripCr(b[..n])] + Lines(b[n + 1..])
      && Terminators(b) == [n > 0 && b[n - 1] == CR] + Terminators(b[n + 1..])
  {
  }

  lemma RenderCons(line: Bytes, crlf: bool, lines: seq<Bytes>, crlfs: seq<bool>)
    requires |lines| == |crlfs|
    ensures Render([line] + lines, [crlf] + crlfs) == line + Terminator(crlf) + Render(lines, crlfs)
  {
    assert ([line] + lines)[1..] == lines && ([crlf] + crlfs)[1..] == crlfs;
  }

  /** A line that a terminator can follow without being misread. */
  predicate PlainLine(line: Bytes) { LF !in line && (line == [] || line[|line| - 1] != CR) }

  lemma {:induction false} FirstLine(body: Bytes, rest: Bytes)
    requires LF !in body
    ensures LineEnd(body + [LF] + rest) == |body|
  {
    if body != [] {
      FirstLine(body[1..], rest);
      assert (body + [LF] + rest)[1..] == body[1..] + [LF] + rest;
      assert body[0] in body;
    }
  }

  lemma LinesBody(body: Bytes, rest: Bytes)
    requires LF !in body
    ensures Lines(body + [LF] + rest) == [StripCr(body)] + Lines(rest)
  {
    hide StripCr, LineEnd;
    var b := body + [LF] + rest;
    FirstLine(body, rest);
    assert b[..|body|] == body && b[|body| + 1..] == rest;
  }

  /** Reading back one rendered line. */
  lemma LinesCons(line: Bytes, crlf: bool, rest: Bytes)
    requires PlainLine(line)
    ensures Lines(line + Terminator(crlf) + rest) == [line] + Lines(rest)
  {
    hide Lines, StripCr;
    if crlf {
      CrAdded(line, rest);
      LinesBody(line + [CR], rest);
    } else {
      NothingStripped(line);
      LinesBody(line, rest);
    }
  }

  lemma CrAdded(line: Bytes, rest: Bytes)
    ensures line + [CR, LF] + rest == line + [CR] + [LF] + rest
    ensures LF !in line ==> LF !in line + [CR]
    ensures StripCr(line + [CR]) == line
  {
    assert [CR, LF] == [CR] + [LF];
    assert (line + [CR])[..|line|] == line;
  }

  lemma NothingStripped(line: Bytes)
    requires PlainLine(line)
    ensures StripCr(line) == line
  {
  }

  lemma {:induction false} LinesRender(lines: seq<Bytes>, crlf: seq<bool>)
    requires |lines| == |crlf| && forall l :: l in lines ==> PlainLine(l)
    ensures Lines(Render(lines, crlf)) == lines && Terminated(Render(lines, crlf))
  {
    hide PlainLine, Lines, LineEnd;
    if lines == [] {
      NoLines();
    } else {
      LinesRender(lines[1..], crlf[1..]);
      assert lines == [lines[0]] + lines[1..];
      LinesCons(lines[0], crlf[0], Render(lines[1..], crlf[1..]));
    }
  }

  // ----- The loader -----

  ghost predicate Canonical<R>(codec: Codec<R>, line: Bytes, record: R) {
    codec.parse(line) == Some(record) && codec.encode(record) == Some(line)
  }

  /** The bytes are these records, in order, each canonical and ended by LF or one CRLF. */
  ghost predicate Writes<R>(codec: Codec<R>, bytes: Bytes, records: seq<R>, lines: seq<Bytes>, crlf: seq<bool>) {
    && |records| == |lines| == |crlf|
    && (forall i :: 0 <= i < |records| ==> Canonical(codec, lines[i], records[i]))
    && bytes == Render(lines, crlf)
  }

  /** Canonical encodings hold no line feed and end in no carriage return. */
  ghost predicate PlainEncoder<R(!new)>(codec: Codec<R>) {
    forall r :: codec.encode(r).Some? ==> PlainLine(codec.encode(r).value)
  }

  /** What the loader must return: the records of the lines, in order, each line canonical. */
  ghost predicate Loads<R>(codec: Codec<R>, bytes: Bytes, records: seq<R>) {
    && Terminated(bytes) && codec.utf8(bytes) && |records| == |Lines(bytes)|
    && forall i :: 0 <= i < |records| ==> Canonical(codec, Lines(bytes)[i], records[i])
  }

  method LoadTelemetry<R(==, !new)>(codec: Codec<R>, bytes: Bytes) returns (r: Result<seq<R>>)
    ensures r.Ok? ==> Loads(codec, bytes, r.value)
    ensures r.Err? ==> forall records :: !Loads(codec, bytes, records)
  {
    if bytes != [] && bytes[|bytes| - 1] != LF {
      return Err("telemetry.jsonl must end with a newline");
    }
    if !codec.utf8(bytes) {
      return Err("telemetry.jsonl is not UTF-8");
    }
    var lines := Lines(bytes);
    var records: seq<R> := [];
    for i := 0 to |lines|
      invariant |records| == i
      invariant forall k :: 0 <= k < i ==> Canonical(codec, lines[k], records[k])
    {
      var record := ParseCanonical(codec, lines[i]);
      if record.Err? {
        forall others ensures !Loads(codec, bytes, others) {
          assert |others| == |lines| ==> !Canonical(codec, lines[i], others[i]);
        }
        return Err(record.error);
      }
      records := records + [record.value];
    }
    r := Ok(records);
  }

  /** The loader accepts exactly the canonical record streams, and returns their records. */
  lemma AcceptsExactly<R(!new)>(codec: Codec<R>, bytes: Bytes, records: seq<R>)
    requires PlainEncoder(codec)
    ensures Loads(codec, bytes, records) <==>
            codec.utf8(bytes) && exists lines, crlf :: Writes(codec, bytes, records, lines, crlf)
  {
    if Loads(codec, bytes, records) {
      RenderLines(bytes);
      assert Writes(codec, bytes, records, Lines(bytes), Terminators(bytes));
    }
    if exists lines, crlf :: Writes(codec, bytes, records, lines, crlf) {
      var lines, crlf :| Writes(codec, bytes, records, lines, crlf);
      forall l | l in lines ensures PlainLine(l) {
        var i :| 0 <= i < |lines| && lines[i] == l;
        assert Canonical(codec, lines[i], records[i]);
      }
      LinesRender(lines, crlf);
    }
  }

  /** One byte stream carries one list of records. */
  lemma RecordsDetermined<R>(codec: Codec<R>, bytes: Bytes, records: seq<R>, others: seq<R>)
    requires Loads(codec, bytes, records) && Loads(codec, bytes, others)
    ensures records == others
  {
    forall i | 0 <= i < |records| ensures records[i] == others[i] {
      assert Canonical(codec, Lines(bytes)[i], records[i]) && Canonical(codec, Lines(bytes)[i], others[i]);
    }
  }
}
