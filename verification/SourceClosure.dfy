/**
  The source-closure payload before hashing: newline normalisation, then
  `path NUL content NUL` for every file. Texts are sequences of characters; CR, LF and NUL
  encode to themselves in UTF-8 and appear in no other character's encoding.
 */
module SourceClosure {
  import opened Wrappers
  import opened Text

  const CR := '\r'
  const LF := '\n'
  const NUL := '\0'

  /** First every CRLF, then every CR that is left, becomes LF. */
  function Normalise(text: string): string {
    Replace(Replace(text, "\r\n", "\n"), "\r", "\n")
  }

  /** The two passes as one scan. */
  function Scan(text: string): string {
    if text == "" then ""
    else if text[0] == CR then
      if |text| > 1 && text[1] == LF then [LF] + Scan(text[2..]) else [LF] + Scan(text[1..])
    else [text[0]] + Scan(text[1..])
  }

  lemma ReplaceStep(s: string, pat: string, rep: string)
    requires |pat| > 0 && s != ""
    ensures Replace(s, pat, rep) ==
      if |s| >= |pat| && s[..|pat|] == pat then rep + Replace(s[|pat|..], pat, rep)
      else [s[0]] + Replace(s[1..], pat, rep)
  {
    if |s| < |pat| { assert s == [s[0]] + s[1..]; }
  }

  lemma ReplaceHead(c: char, s: string, rep: string)
    ensures Replace([c] + s, "\r", rep) == (if c == CR then rep else [c]) + Replace(s, "\r", rep)
  {
    ReplaceStep([c] + s, "\r", rep);
    assert ([c] + s)[1..] == s && ([c] + s)[..1] == [c];
  }

  lemma {:induction false} NormaliseIsScan(text: string)
    ensures Normalise(text) == Scan(text)
  {
    if text != "" {
      ReplaceStep(text, "\r\n", "\n");
      if |text| > 1 && text[0] == CR && text[1] == LF {
        assert text[..2] == "\r\n";
        NormaliseIsScan(text[2..]);
        ReplaceHead(LF, Replace(text[2..], "\r\n", "\n"), "\n");
      } else {
        assert |text| > 1 ==> text[..2] == [text[0], text[1]];
        NormaliseIsScan(text[1..]);
        ReplaceHead(text[0], Replace(text[1..], "\r\n", "\n"), "\n");
      }
    }
  }

  lemma {:induction false} ScanIsClean(text: string)
    ensures CR !in Scan(text)
    ensures CR !in text ==> Scan(text) == text
  {
    if text != "" {
      ScanIsClean(text[1..]);
      if |text| > 1 { ScanIsClean(text[2..]); }
    }
  }

  /** Normalised text has no CR, and normalising it again changes nothing. */
  lemma NormalisationSettles(text: string)
    ensures CR !in Normalise(text)
    ensures Normalise(Normalise(text)) == Normalise(text)
    ensures Normalise(text) == text <==> CR !in text
  {
    NormaliseIsScan(text);
    ScanIsClean(text);
    NormaliseIsScan(Scan(text));
    ScanIsClean(Scan(text));
  }

  // ---------------------------------------------------------------- line-ending styles

  datatype Ending = EndLf | EndCrLf | EndCr

  function EndingText(e: Ending): string {
    match e case EndLf => "\n" case EndCrLf => "\r\n" case EndCr => "\r"
  }

  datatype Line = Line(text: string, ending: Ending)

  predicate IsLine(l: Line) {
    CR !in l.text && LF !in l.text
  }

  /** A file: its terminated lines, then the unterminated rest. */
  function Render(lines: seq<Line>, rest: string): string {
    if lines == [] then rest
    else lines[0].text + EndingText(lines[0].ending) + Render(lines[1..], rest)
  }

  function InLf(lines: seq<Line>): seq<Line> {
    seq(|lines|, i requires 0 <= i < |lines| => lines[i].(ending := EndLf))
  }

  /** A CR-terminated line directly before an empty LF-terminated one reads back as one CRLF. */
  predicate Ambiguous(lines: seq<Line>) {
    exists i | 0 <= i < |lines| - 1 ::
      lines[i].ending == EndCr && lines[i + 1].text == "" && lines[i + 1].ending == EndLf
  }

  lemma {:induction false} ScanSkipsLine(text: string, tail: string)
    requires CR !in text
    ensures Scan(text + tail) == text + Scan(tail)
  {
    if text == "" {
      assert text + tail == tail;
    } else {
      ScanSkipsLine(text[1..], tail);
      assert (text + tail)[1..] == text[1..] + tail;
      assert text == [text[0]] + text[1..];
      Regroup([text[0]], text[1..], Scan(tail));
    }
  }

  lemma ScanEnding(e: Ending, tail: string)
    ensures Scan(EndingText(e) + tail) ==
      [LF] + Scan(if e == EndCr && tail != "" && tail[0] == LF then tail[1..] else tail)
  {
    var s := EndingText(e) + tail;
    match e
    case EndLf => assert s[1..] == tail;
    case EndCrLf => assert s[2..] == tail;
    case EndCr =>
      assert s[1..] == tail;
      if tail != "" && tail[0] == LF { assert s[2..] == tail[1..]; }
  }

  lemma StartsWithLf(lines: seq<Line>, rest: string)
    requires (forall l | l in lines :: IsLine(l)) && LF !in rest && CR !in rest
    ensures Render(lines, rest) != "" && Render(lines, rest)[0] == LF
      <==> lines != [] && lines[0].text == "" && lines[0].ending == EndLf
  {
    if lines != [] {
      var r := Render(lines, rest);
      assert lines[0] in lines;
      if lines[0].text != "" {
        assert r[0] == lines[0].text[0];
      } else {
        assert r[0] == EndingText(lines[0].ending)[0];
      }
    }
  }

  lemma AmbiguousStep(lines: seq<Line>)
    requires lines != []
    ensures Ambiguous(lines) <==>
      || Ambiguous(lines[1..])
      || (|lines| > 1 && lines[0].ending == EndCr && lines[1].text == "" && lines[1].ending == EndLf)
  {
    var tail := lines[1..];
    if Ambiguous(lines) {
      var i :| 0 <= i < |lines| - 1
        && lines[i].ending == EndCr && lines[i + 1].text == "" && lines[i + 1].ending == EndLf;
      if i > 0 { assert tail[i - 1] == lines[i] && tail[i] == lines[i + 1]; }
    }
    if Ambiguous(tail) {
      var i :| 0 <= i < |tail| - 1
        && tail[i].ending == EndCr && tail[i + 1].text == "" && tail[i + 1].ending == EndLf;
      assert lines[i + 1] == tail[i] && lines[i + 2] == tail[i + 1];
    }
  }

  /** Scanning eats one line and, where a CR ending meets an LF, that LF with it. */
  lemma ScanFirstLine(l: Line, after: string)
    requires IsLine(l)
    ensures var merges := l.ending == EndCr && after != "" && after[0] == LF;
      Scan(l.text + EndingText(l.ending) + after) == l.text + "\n" + Scan(if merges then after[1..] else after)
  {
    var merges := l.ending == EndCr && after != "" && after[0] == LF;
    var tail := if merges then after[1..] else after;
    ScanSkipsLine(l.text, EndingText(l.ending) + after);
    ScanEnding(l.ending, after);
    Regroup(l.text, EndingText(l.ending), after);
    Regroup(l.text, "\n", Scan(tail));
  }

  lemma ScanAfterLf(after: string)
    requires after != "" && after[0] == LF
    ensures |Scan(after)| == 1 + |Scan(after[1..])|
  {
  }

  lemma RenderInLf(lines: seq<Line>, rest: string)
    requires lines != []
    ensures Render(InLf(lines), rest) == lines[0].text + "\n" + Render(InLf(lines[1..]), rest)
  {
    assert InLf(lines)[1..] == InLf(lines[1..]);
  }

  /** Scanning gives the LF form, or a strictly shorter text when two endings merge. */
  lemma {:induction false} ScanRendered(lines: seq<Line>, rest: string)
    requires (forall l | l in lines :: IsLine(l)) && LF !in rest && CR !in rest
    ensures !Ambiguous(lines) ==> Scan(Render(lines, rest)) == Render(InLf(lines), rest)
    ensures Ambiguous(lines) ==> |Scan(Render(lines, rest))| < |Render(InLf(lines), rest)|
  {
    if lines == [] {
      ScanIsClean(rest);
    } else {
      var l, tail := lines[0], lines[1..];
      var after := Render(tail, rest);
      assert l in lines && forall x | x in tail :: x in lines;
      ScanFirstLine(l, after);
      RenderInLf(lines, rest);
      StartsWithLf(tail, rest);
      AmbiguousStep(lines);
      ScanRendered(tail, rest);
      if l.ending == EndCr && after != "" && after[0] == LF { ScanAfterLf(after); }
    }
  }

  /** Line-ending style is normalised away exactly for texts in which no CR ending meets an empty LF line. */
  lemma StyleIsNormalisedAway(lines: seq<Line>, rest: string)
    requires (forall l | l in lines :: IsLine(l)) && LF !in rest && CR !in rest
    ensures Normalise(Render(lines, rest)) == Normalise(Render(InLf(lines), rest)) <==> !Ambiguous(lines)
  {
    NormaliseIsScan(Render(lines, rest));
    NormaliseIsScan(Render(InLf(lines), rest));
    assert forall l | l in InLf(lines) :: IsLine(l) by {
      forall l | l in InLf(lines) ensures IsLine(l) {
        var i :| 0 <= i < |lines| && InLf(lines)[i] == l;
        assert lines[i] in lines;
      }
    }
    ScanRendered(lines, rest);
    ScanRendered(InLf(lines), rest);
    assert InLf(InLf(lines)) == InLf(lines);
    assert !Ambiguous(InLf(lines));
  }

  // ---------------------------------------------------------------- the payload

  datatype File = File(path: string, content: string)

  function Encode(files: seq<File>): string {
    if files == [] then ""
    else Encode(files[..|files| - 1]) + FileText(files[|files| - 1])
  }

  function FileText(f: File): string {
    f.path + [NUL] + f.content + [NUL]
  }

  function Normalised(files: seq<File>): seq<File> {
    seq(|files|, i requires 0 <= i < |files| => files[i].(content := Normalise(files[i].content)))
  }

  /** The buffer the source hashes. */
  method CanonicalPayload(files: seq<File>) returns (payload: string)
    ensures payload == Encode(Normalised(files))
  {
    payload := "";
    for i := 0 to |files|
      invariant payload == Encode(Normalised(files)[..i])
    {
      var normalised := Replace(Replace(files[i].content, "\r\n", "\n"), "\r", "\n");
      payload := payload + (files[i].path + [NUL] + normalised + [NUL]);
      assert Normalised(files)[..i + 1][..i] == Normalised(files)[..i];
    }
    assert Normalised(files)[..|files|] == Normalised(files);
  }

  // ---------------------------------------------------------------- checkouts

  datatype Document = Document(path: string, lines: seq<string>, rest: string)

  predicate IsDocument(d: Document) {
    && (forall l | l in d.lines :: LF !in l && CR !in l)
    && LF !in d.rest && CR !in d.rest
  }

  function Ended(lines: seq<string>, e: Ending): seq<Line> {
    seq(|lines|, i requires 0 <= i < |lines| => Line(lines[i], e))
  }

  /** The documents as a checkout writes them, every line with the same ending. */
  function Checkout(documents: seq<Document>, e: Ending): seq<File> {
    seq(|documents|, i requires 0 <= i < |documents| =>
      File(documents[i].path, Render(Ended(documents[i].lines, e), documents[i].rest)))
  }

  lemma CheckoutNormalises(d: Document, e: Ending)
    requires IsDocument(d)
    ensures Normalise(Render(Ended(d.lines, e), d.rest)) == Render(Ended(d.lines, EndLf), d.rest)
  {
    var lines := Ended(d.lines, e);
    assert forall l | l in lines :: IsLine(l) by {
      forall l | l in lines ensures IsLine(l) {
        var i :| 0 <= i < |lines| && lines[i] == l;
        assert d.lines[i] in d.lines;
      }
    }
    assert !Ambiguous(lines);
    assert InLf(lines) == Ended(d.lines, EndLf);
    NormaliseIsScan(Render(lines, d.rest));
    ScanRendered(lines, d.rest);
  }

  /** An LF, a CRLF and a CR checkout of the same documents have one payload: that of the LF files. */
  lemma CheckoutsAgree(documents: seq<Document>, e: Ending)
    requires forall d | d in documents :: IsDocument(d)
    ensures Encode(Normalised(Checkout(documents, e))) == Encode(Checkout(documents, EndLf))
  {
    forall i | 0 <= i < |documents|
      ensures Normalised(Checkout(documents, e))[i] == Checkout(documents, EndLf)[i]
    {
      assert documents[i] in documents;
      CheckoutNormalises(documents[i], e);
    }
    assert Normalised(Checkout(documents, e)) == Checkout(documents, EndLf);
  }

  // ---------------------------------------------------------------- decoding

  /** The text before the first NUL and what follows it. */
  function Field(s: string): Option<(string, string)> {
    if s == "" then None
    else if s[0] == NUL then Some(("", s[1..]))
    else match Field(s[1..])
      case None => None
      case Some((head, tail)) => Some(([s[0]] + head, tail))
  }

  lemma {:induction false} FieldShrinks(s: string)
    ensures Field(s).Some? ==> |Field(s).value.1| < |s|
  {
    if s != "" { FieldShrinks(s[1..]); }
  }

  function Decode(s: string): Option<seq<File>>
    decreases |s|
  {
    if s == "" then Some([])
    else match Field(s)
      case None => None
      case Some((path, afterPath)) =>
        match Field(afterPath)
        case None => None
        case Some((content, rest)) =>
          FieldShrinks(s);
          FieldShrinks(afterPath);
          match Decode(rest)
          case None => None
          case Some(files) => Some([File(path, content)] + files)
  }

  predicate NulFree(files: seq<File>) {
    forall i | 0 <= i < |files| :: NUL !in files[i].path && NUL !in files[i].content
  }

  lemma {:induction false} FieldReads(head: string, tail: string)
    requires NUL !in head
    ensures Field(head + [NUL] + tail) == Some((head, tail))
  {
    var s := head + [NUL] + tail;
    if head == "" {
      assert s == [NUL] + tail && s[1..] == tail;
    } else {
      FieldReads(head[1..], tail);
      assert s[0] == head[0] && head == [head[0]] + head[1..];
      assert s[1..] == head[1..] + [NUL] + tail;
    }
  }

  lemma {:induction false} EncodeConcat(a: seq<File>, b: seq<File>)
    ensures Encode(a + b) == Encode(a) + Encode(b)
  {
    if b == [] {
      assert a + b == a;
    } else {
      var front, last := b[..|b| - 1], b[|b| - 1];
      EncodeConcat(a, front);
      EncodeSnoc(a + front, last);
      EncodeSnoc(front, last);
      assert a + b == a + front + [last] && b == front + [last];
      Regroup(Encode(a), Encode(front), FileText(last));
    }
  }

  lemma EncodeSnoc(files: seq<File>, f: File)
    ensures Encode(files + [f]) == Encode(files) + FileText(f)
  {
    assert (files + [f])[..|files|] == files;
  }

  lemma Regroup(a: string, b: string, c: string)
    ensures a + b + c == a + (b + c)
  {
  }

  lemma EncodeOne(f: File)
    ensures Encode([f]) == FileText(f)
  {
    assert [f][..0] == [];
  }

  lemma FileThen(f: File, rest: string)
    ensures FileText(f) + rest == f.path + [NUL] + (f.content + [NUL] + rest)
  {
  }

  lemma {:induction false} DecodeEncode(files: seq<File>)
    requires NulFree(files)
    ensures Decode(Encode(files)) == Some(files)
  {
    if files != [] {
      var f, rest := files[0], files[1..];
      DecodeEncode(rest);
      assert files == [f] + rest;
      EncodeConcat([f], rest);
      EncodeOne(f);
      var tail := f.content + [NUL] + Encode(rest);
      FileThen(f, Encode(rest));
      FieldReads(f.path, tail);
      FieldReads(f.content, Encode(rest));
    }
  }

  lemma {:induction false} FieldIsNulFree(s: string)
    ensures Field(s).Some? ==> NUL !in Field(s).value.0
  {
    if s != "" { FieldIsNulFree(s[1..]); }
  }

  lemma {:induction false} DecodeIsNulFree(s: string)
    ensures Decode(s).Some? ==> NulFree(Decode(s).value)
    decreases |s|
  {
    if Decode(s).Some? && s != "" {
      var (_, afterPath) := Field(s).value;
      var (_, rest) := Field(afterPath).value;
      FieldShrinks(s);
      FieldShrinks(afterPath);
      FieldIsNulFree(s);
      FieldIsNulFree(afterPath);
      DecodeIsNulFree(rest);
    }
  }

  /** The decoder gives the files back exactly when no path or content holds a NUL. */
  lemma RoundTripExactly(files: seq<File>)
    ensures Decode(Encode(files)) == Some(files) <==> NulFree(files)
  {
    if NulFree(files) { DecodeEncode(files); }
    DecodeIsNulFree(Encode(files));
  }

  /** Equal payloads of NUL-free closures mean equal paths and equal normalised contents. */
  lemma PayloadsAgree(a: seq<File>, b: seq<File>)
    requires NulFree(Normalised(a)) && NulFree(Normalised(b))
    requires Encode(Normalised(a)) == Encode(Normalised(b))
    ensures |a| == |b|
    ensures forall i | 0 <= i < |a| :: a[i].path == b[i].path && Normalise(a[i].content) == Normalise(b[i].content)
  {
    DecodeEncode(Normalised(a));
    DecodeEncode(Normalised(b));
    assert Normalised(a) == Normalised(b);
    forall i | 0 <= i < |a| ensures a[i].path == b[i].path && Normalise(a[i].content) == Normalise(b[i].content) {
      assert Normalised(a)[i] == Normalised(b)[i];
    }
  }

  // ---------------------------------------------------------------- contents with NULs, paths fixed

  /** What stands between the content of one file and that of the next. */
  function Separator(path: string): string {
    [NUL] + path + [NUL]
  }

  function Around(f: File, g: File): string {
    f.content + Separator(g.path) + g.content
  }

  predicate SamePaths(a: seq<File>, b: seq<File>) {
    |a| == |b| && forall i | 0 <= i < |a| :: a[i].path == b[i].path
  }

  /** Between two neighbours their separator reads in its own place only. */
  predicate SeparatesOnce(f: File, g: File) {
    forall k | 0 <= k <= |Around(f, g)| :: OccursAt(Around(f, g), Separator(g.path), k) ==> k == |f.content|
  }

  predicate OneReading(files: seq<File>) {
    forall i | 0 <= i < |files| - 1 :: SeparatesOnce(files[i], files[i + 1])
  }

  /** The payload without the first path and the last NUL. */
  function Middle(files: seq<File>): string
    requires files != []
  {
    if |files| == 1 then files[0].content
    else files[0].content + Separator(files[1].path) + Middle(files[1..])
  }

  lemma {:induction false} EncodeIsMiddle(files: seq<File>)
    requires files != []
    ensures Encode(files) == files[0].path + [NUL] + Middle(files) + [NUL]
  {
    EncodeOne(files[0]);
    if |files| == 1 {
      assert files == [files[0]];
    } else {
      EncodeIsMiddle(files[1..]);
      EncodeConcat([files[0]], files[1..]);
      assert files == [files[0]] + files[1..];
      Weave(files[0], files[1].path, Middle(files[1..]));
    }
  }

  lemma Weave(f: File, path: string, m: string)
    ensures FileText(f) + (path + [NUL] + m + [NUL]) == f.path + [NUL] + (f.content + Separator(path) + m) + [NUL]
  {
    assert FileText(f) + (path + [NUL] + m + [NUL])
        == f.path + [NUL] + f.content + [NUL] + path + [NUL] + m + [NUL];
  }

  predicate IsSuffix(tail: string, text: string) {
    |tail| <= |text| && text[|text| - |tail|..] == tail
  }

  lemma Suffixes(a: string, b: string, text: string)
    requires IsSuffix(a, text) && IsSuffix(b, text) && |a| <= |b|
    ensures IsSuffix(a, b)
  {
    assert b[|b| - |a|..] == text[|text| - |a|..];
  }

  lemma MiddleTail(files: seq<File>)
    requires |files| > 1
    ensures |Middle(files)| == |files[0].content| + |Separator(files[1].path)| + |Middle(files[1..])|
    ensures IsSuffix(Middle(files[1..]), Middle(files))
    ensures IsSuffix(Separator(files[1].path) + Middle(files[1..]), Middle(files))
    ensures Around(files[0], files[1]) <= Middle(files)
    ensures |Around(files[0], files[1])| == |files[0].content| + |Separator(files[1].path)| + |files[1].content|
  {
    if |files| > 2 {
      assert Middle(files)[..|Around(files[0], files[1])|] == Around(files[0], files[1]);
    }
  }

  /** Where `other` puts its first separator, `files` shows one too, if it lies between the first two contents. */
  lemma SeparatorShows(files: seq<File>, other: seq<File>)
    requires |files| > 1 && SamePaths(files, other) && IsSuffix(Middle(other), Middle(files))
    ensures var at := |Middle(files)| - |Separator(files[1].path)| - |Middle(other[1..])|;
      0 <= at <= |files[0].content| + |files[1].content| ==>
        OccursAt(Around(files[0], files[1]), Separator(files[1].path), at)
  {
    MiddleTail(files);
    MiddleTail(other);
    assert other[1].path == files[1].path;
    hide Middle, Around, Separator;
    var sep, tail := Separator(files[1].path), Middle(other[1..]);
    Chained(sep + tail, Middle(other), Middle(files));
    ShowsAt(Middle(files), Around(files[0], files[1]), sep, tail);
  }

  lemma ShowsAt(text: string, front: string, sep: string, tail: string)
    requires front <= text && IsSuffix(sep + tail, text)
    ensures var at := |text| - |sep| - |tail|; at + |sep| <= |front| ==> OccursAt(front, sep, at)
  {
    var at := |text| - |sep| - |tail|;
    if at + |sep| <= |front| {
      assert text[at..] == sep + tail;
      assert front[at..at + |sep|] == text[at..][..|sep|];
    }
  }

  lemma Chained(a: string, b: string, c: string)
    requires IsSuffix(a, b) && IsSuffix(b, c)
    ensures IsSuffix(a, c)
  {
    assert c[|c| - |a|..] == b[|b| - |a|..];
  }

  /** A second reading that starts late starts within the first content. */
  lemma {:induction false} LateReading(files: seq<File>, other: seq<File>)
    requires files != [] && SamePaths(files, other) && OneReading(files) && IsSuffix(Middle(other), Middle(files))
    ensures |Middle(files)| - |Middle(other)| <= |files[0].content|
  {
    if |files| > 1 {
      var rest, others := files[1..], other[1..];
      MiddleTail(files);
      MiddleTail(other);
      assert other[1].path == files[1].path;
      if |Middle(others)| <= |Middle(rest)| {
        Chained(Middle(others), Middle(other), Middle(files));
        Suffixes(Middle(others), Middle(rest), Middle(files));
        assert OneReading(rest) by { OneReadingTail(files); }
        LateReading(rest, others);
        SeparatorShows(files, other);
        assert SeparatesOnce(files[0], files[1]);
      }
    }
  }

  lemma OneReadingTail(files: seq<File>)
    requires files != [] && OneReading(files)
    ensures OneReading(files[1..])
  {
    forall i | 0 <= i < |files[1..]| - 1 ensures SeparatesOnce(files[1..][i], files[1..][i + 1]) {
      assert SeparatesOnce(files[i + 1], files[i + 1 + 1]);
    }
  }

  lemma FirstContentsAgree(files: seq<File>, other: seq<File>)
    requires |files| > 1 && SamePaths(files, other) && OneReading(files) && Middle(files) == Middle(other)
    ensures files[0] == other[0] && Middle(files[1..]) == Middle(other[1..])
  {
    var rest, others := files[1..], other[1..];
    MiddleTail(files);
    MiddleTail(other);
    OneReadingTail(files);
    assert files[0].path == other[0].path && other[1].path == files[1].path;
    if |Middle(others)| <= |Middle(rest)| {
      Suffixes(Middle(others), Middle(rest), Middle(files));
      LateReading(rest, others);
    }
    SeparatorShows(files, other);
    assert SeparatesOnce(files[0], files[1]);
    assert |files[0].content| == |other[0].content|;
    assert files[0].content == Middle(files)[..|files[0].content|] == other[0].content;
  }

  lemma {:induction false} OneReadingIsUnique(files: seq<File>, other: seq<File>)
    requires files != [] && SamePaths(files, other) && OneReading(files) && Middle(files) == Middle(other)
    ensures files == other
  {
    assert files[0].path == other[0].path;
    assert files == [files[0]] + files[1..] && other == [other[0]] + other[1..];
    if |files| > 1 {
      FirstContentsAgree(files, other);
      OneReadingTail(files);
      assert SamePaths(files[1..], other[1..]);
      OneReadingIsUnique(files[1..], other[1..]);
    }
  }

  lemma MovePair(f: File, g: File, k: nat) returns (f': File, g': File)
    requires OccursAt(Around(f, g), Separator(g.path), k)
    ensures f'.path == f.path && g'.path == g.path && |f'.content| == k
    ensures Around(f', g') == Around(f, g)
    ensures forall c | c in f'.content || c in g'.content :: c in Around(f, g)
  {
    var text, sep := Around(f, g), Separator(g.path);
    f', g' := File(f.path, text[..k]), File(g.path, text[k + |sep|..]);
    assert text[k..k + |sep|] == sep;
    assert text == text[..k] + text[k..k + |sep|] + text[k + |sep|..];
  }

  lemma SamePair(left: seq<File>, f: File, g: File, f': File, g': File, right: seq<File>)
    requires f'.path == f.path && g'.path == g.path && Around(f', g') == Around(f, g)
    ensures Encode(left + [f', g'] + right) == Encode(left + [f, g] + right)
  {
    PairText(f, g);
    PairText(f', g');
    EncodeConcat(left, [f, g]);
    EncodeConcat(left, [f', g']);
    EncodeConcat(left + [f, g], right);
    EncodeConcat(left + [f', g'], right);
  }

  /** A separator that reads elsewhere too may be moved there: same paths, same payload, other contents. */
  lemma MoveSeparator(files: seq<File>, i: nat, k: nat) returns (other: seq<File>)
    requires i + 1 < |files| && k != |files[i].content|
    requires OccursAt(Around(files[i], files[i + 1]), Separator(files[i + 1].path), k)
    ensures SamePaths(files, other) && other != files && Encode(other) == Encode(files)
    ensures forall j | 0 <= j < |other| :: forall c | c in other[j].content ::
      c in files[j].content || c in Around(files[i], files[i + 1])
  {
    var f, g := files[i], files[i + 1];
    var f', g' := MovePair(f, g, k);
    other := files[i := f'][i + 1 := g'];
    SamePair(files[..i], f, g, f', g', files[i + 2..]);
    assert files == files[..i] + [f, g] + files[i + 2..];
    assert other == files[..i] + [f', g'] + files[i + 2..];
  }

  lemma PairText(f: File, g: File)
    ensures Encode([f, g]) == f.path + [NUL] + Around(f, g) + [NUL]
  {
    EncodeIsMiddle([f, g]);
    assert [f, g][1..] == [g];
  }

  ghost predicate DeterminedByPayload(files: seq<File>) {
    forall other: seq<File> | SamePaths(files, other) && Encode(other) == Encode(files) :: other == files
  }

  /**
    With the path list fixed the payload determines the contents exactly when every separator
    reads in one place only between its two neighbours. A single file always passes.
   */
  lemma FixedPathsDecodeExactly(files: seq<File>)
    ensures DeterminedByPayload(files) <==> OneReading(files)
  {
    if OneReading(files) {
      forall other: seq<File> | SamePaths(files, other) && Encode(other) == Encode(files) ensures other == files {
        if files != [] {
          EncodeIsMiddle(files);
          EncodeIsMiddle(other);
          assert files[0].path == other[0].path;
          MiddleOfEncode(files);
          MiddleOfEncode(other);
          OneReadingIsUnique(files, other);
        }
      }
    } else {
      var i :| 0 <= i < |files| - 1 && !SeparatesOnce(files[i], files[i + 1]);
      var k :| 0 <= k <= |Around(files[i], files[i + 1])| && k != |files[i].content|
        && OccursAt(Around(files[i], files[i + 1]), Separator(files[i + 1].path), k);
      var other := MoveSeparator(files, i, k);
    }
  }

  lemma MiddleOfEncode(files: seq<File>)
    requires files != []
    ensures |Encode(files)| >= |files[0].path| + 2
    ensures Middle(files) == Encode(files)[|files[0].path| + 1..|Encode(files)| - 1]
  {
    EncodeIsMiddle(files);
  }

  /** The loader compares each path with the version-control listing, which quotes control characters. */
  predicate CrFreePaths(files: seq<File>) {
    forall i | 0 <= i < |files| :: CR !in files[i].path
  }

  /** The same for closures as they lie on disk, up to newline style. */
  lemma ClosuresDecodeExactly(files: seq<File>)
    requires CrFreePaths(files)
    ensures OneReading(Normalised(files)) <==>
      forall other: seq<File> | SamePaths(files, other) && Encode(Normalised(other)) == Encode(Normalised(files)) ::
        Normalised(other) == Normalised(files)
  {
    var clean := Normalised(files);
    FixedPathsDecodeExactly(clean);
    if OneReading(clean) {
      forall other: seq<File> | SamePaths(files, other) && Encode(Normalised(other)) == Encode(clean)
        ensures Normalised(other) == clean
      {
        assert SamePaths(clean, Normalised(other));
      }
    } else {
      var other := CleanCollision(files);
      assert Normalised(other) != clean;
    }
  }

  lemma CleanCollision(files: seq<File>) returns (other: seq<File>)
    requires CrFreePaths(files) && !OneReading(Normalised(files))
    ensures SamePaths(files, other) && Normalised(other) == other
    ensures other != Normalised(files) && Encode(other) == Encode(Normalised(files))
  {
    var clean := Normalised(files);
    var i :| 0 <= i < |clean| - 1 && !SeparatesOnce(clean[i], clean[i + 1]);
    var k :| 0 <= k <= |Around(clean[i], clean[i + 1])| && k != |clean[i].content|
      && OccursAt(Around(clean[i], clean[i + 1]), Separator(clean[i + 1].path), k);
    other := MoveSeparator(clean, i, k);
    forall j | 0 <= j < |clean| ensures CR !in clean[j].content && clean[j].path == files[j].path {
      NormalisationSettles(files[j].content);
    }
    forall j | 0 <= j < |other| ensures Normalise(other[j].content) == other[j].content {
      NormalisationSettles(other[j].content);
    }
    assert Normalised(other) == other;
  }

  /** Over any two paths there are two closures with different contents and one payload. */
  lemma TwoFilesCollide(p: string, q: string) returns (a: seq<File>, b: seq<File>)
    requires CR !in q
    ensures SamePaths(a, b) && |a| == 2 && a[0].path == p && a[1].path == q
    ensures Normalised(a) != Normalised(b) && Encode(Normalised(a)) == Encode(Normalised(b))
  {
    var sep := Separator(q);
    a, b := [File(p, sep), File(q, "")], [File(p, ""), File(q, sep)];
    SeparatorIsThere(q);
    NormalisationSettles(sep);
    NormalisationSettles("");
    hide Normalise, Separator, Encode;
    assert Normalised(a) == a && Normalised(b) == b;
    PairText(a[0], a[1]);
    PairText(b[0], b[1]);
    assert Around(a[0], a[1]) == sep + sep == Around(b[0], b[1]);
    assert a[0] != b[0];
  }

  lemma SeparatorIsThere(path: string)
    ensures |Separator(path)| == |path| + 2
    ensures CR !in path ==> CR !in Separator(path)
  {
  }
}
