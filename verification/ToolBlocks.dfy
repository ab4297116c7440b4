/** Tool-request blocks in model text (crates/orion-birth/src/chat.rs): fenced and XML-tagged blocks are
    taken out of the text and decoded, in two passes. JSON decoding is a parameter. */
module ToolBlocks {
  import opened Text

  /** A JSON value, as far as the callers look into one. */
  datatype Json = Str(text: string) | Obj(fields: map<string, Json>) | Other(rendered: string)

  datatype Request = Request(name: string, arguments: Json)

  type Decoder = string -> Option<Request>

  const CODE_MARKER: string := "```tool_request"
  const CODE_CLOSE: string := "```"
  const XML_OPEN: string := "<tool_request>"
  const XML_CLOSE: string := "</tool_request>"

  datatype Scanned = Scanned(text: string, blocks: seq<string>)

  /** What follows an opening marker: the block, and the text to go on with. A block that is never closed
      runs to the end and stays in the text. */
  datatype Split = Split(raw: string, more: string)

  function SplitAtClose(after: string, close: string): (r: Split)
    ensures |r.more| <= |after|
  {
    match Find(after, close)
    case Some(j) => Split(after[..j], after[j + |close|..])
    case None => Split(after, after)
  }

  /** What one pass leaves of a text and the blocks it takes out, by leftmost opening marker. */
  function Scan(s: string, open: string, close: string): Scanned
    requires open != ""
    decreases |s|, 0
  {
    match Find(s, open)
    case None => Scanned(s, [])
    case Some(i) => Resume(s[..i], s[i + |open|..], open, close)
  }

  /** The scan once a marker has been found, between `before` and `after`. */
  function Resume(before: string, after: string, open: string, close: string): Scanned
    requires open != ""
    decreases |after|, 1
  {
    var split := SplitAtClose(after, close);
    var rest := Scan(split.more, open, close);
    Scanned(before + rest.text, [split.raw] + rest.blocks)
  }

  /** The blocks that decode, in order. */
  function Decoded(decode: Decoder, blocks: seq<string>): seq<Request> {
    if blocks == [] then []
    else
      var rest := Decoded(decode, blocks[1..]);
      match decode(Trim(blocks[0]))
      case Some(r) => [r] + rest
      case None => rest
  }

  // ---- The code ----

  method ExtractBlocks(content: string, open: string, close: string, decode: Decoder)
    returns (out: string, requests: seq<Request>)
    requires open != "" && close != ""
    ensures out == Scan(content, open, close).text
    ensures requests == Decoded(decode, Scan(content, open, close).blocks)
  {
    hide Find, Scan, Decoded;
    out, requests := "", [];
    var rest := content;
    var hit := Find(rest, open);
    while hit.Some?
      invariant hit == Find(rest, open)
      invariant out + Scan(rest, open, close).text == Scan(content, open, close).text
      invariant requests + Decoded(decode, Scan(rest, open, close).blocks)
             == Decoded(decode, Scan(content, open, close).blocks)
      decreases |rest|
    {
      ScanStep(rest, open, close, hit.value);
      var before := rest[..hit.value];
      rest := rest[hit.value + |open|..];
      ghost var after := rest;
      var closing := Find(rest, close);
      var end := if closing.Some? then closing.value else |rest|;
      var raw := rest[..end];
      if closing.Some? {
        rest := rest[end + |close|..];
      }
      assert SplitAtClose(after, close) == Split(raw, rest);
      DecodedUnfold(decode, raw, Scan(rest, open, close).blocks);
      Reassociate(out, before, Scan(rest, open, close).text);
      out := out + before;
      var parsed := decode(Trim(raw));
      match parsed {
        case Some(r) =>
          Reassociate(requests, [r], Decoded(decode, Scan(rest, open, close).blocks));
          requests := requests + [r];
        case None =>
      }
      hit := Find(rest, open);
    }
    ScanDone(rest, open, close, decode);
    out := out + rest;
  }

  lemma ScanStep(s: string, open: string, close: string, i: nat)
    requires open != "" && Find(s, open) == Some(i)
    ensures var split := SplitAtClose(s[i + |open|..], close);
      Scan(s, open, close).text == s[..i] + Scan(split.more, open, close).text
      && Scan(s, open, close).blocks == [split.raw] + Scan(split.more, open, close).blocks
  {
  }

  lemma ScanDone(s: string, open: string, close: string, decode: Decoder)
    requires open != "" && Find(s, open).None?
    ensures Scan(s, open, close).text == s && Decoded(decode, Scan(s, open, close).blocks) == []
  {
  }

  lemma ScanAt(s: string, open: string, close: string, before: string, after: string)
    requires open != "" && Find(s, open) == Some(|before|) && s == before + (open + after)
    ensures Scan(s, open, close) == Resume(before, after, open, close)
  {
    assert s[|before| + |open|..] == after && s[..|before|] == before;
  }

  lemma DecodedUnfold(decode: Decoder, raw: string, blocks: seq<string>)
    ensures Decoded(decode, [raw] + blocks)
         == (match decode(Trim(raw)) case Some(r) => [r] + Decoded(decode, blocks) case None => Decoded(decode, blocks))
  {
    assert ([raw] + blocks)[1..] == blocks;
  }

  /** What the two passes return. */
  function Parsed(content: string, decode: Decoder): (string, seq<Request>) {
    var pass1 := Scan(content, CODE_MARKER, CODE_CLOSE);
    var pass2 := Scan(pass1.text, XML_OPEN, XML_CLOSE);
    (Trim(pass2.text), Decoded(decode, pass1.blocks) + Decoded(decode, pass2.blocks))
  }

  method ParseToolRequests(content: string, decode: Decoder) returns (text: string, requests: seq<Request>)
    ensures (text, requests) == Parsed(content, decode)
  {
    var out, fenced := ExtractBlocks(content, CODE_MARKER, CODE_CLOSE, decode);
    var out2, tagged := ExtractBlocks(out, XML_OPEN, XML_CLOSE, decode);
    return Trim(out2), fenced + tagged;
  }

  // ---- Rendering, the parser's inverse ----

  datatype Piece = Plain(text: string) | Fenced(body: string) | Tagged(body: string)

  function RenderPiece(p: Piece): string {
    match p
    case Plain(t) => t
    case Fenced(b) => CODE_MARKER + b + CODE_CLOSE
    case Tagged(b) => XML_OPEN + b + XML_CLOSE
  }

  function Render(ps: seq<Piece>): string {
    if ps == [] then "" else RenderPiece(ps[0]) + Render(ps[1..])
  }

  predicate Free(s: string, c: char) {
    forall i :: 0 <= i < |s| ==> s[i] != c
  }

  /** Texts and bodies without the two characters that open a marker. */
  predicate Plainly(ps: seq<Piece>) {
    forall p :: p in ps ==>
      var s := if p.Plain? then p.text else p.body; Free(s, '`') && Free(s, '<')
  }

  function WithoutFences(ps: seq<Piece>): seq<Piece> {
    if ps == [] then [] else (if ps[0].Fenced? then [] else [ps[0]]) + WithoutFences(ps[1..])
  }

  function FenceBodies(ps: seq<Piece>): seq<string> {
    if ps == [] then [] else (if ps[0].Fenced? then [ps[0].body] else []) + FenceBodies(ps[1..])
  }

  function TagBodies(ps: seq<Piece>): seq<string> {
    if ps == [] then [] else (if ps[0].Tagged? then [ps[0].body] else []) + TagBodies(ps[1..])
  }

  function PlainText(ps: seq<Piece>): string {
    if ps == [] then "" else (if ps[0].Plain? then ps[0].text else "") + PlainText(ps[1..])
  }

  // ---- How a pass moves over a rendered text ----

  /** Text without the marker's first character is passed over. */
  lemma FindPastFree(t: string, rest: string, p: string)
    requires p != "" && Free(t, p[0])
    ensures Find(t + rest, p) == if Find(rest, p).Some? then Some(|t| + Find(rest, p).value) else None
  {
    FindFacts(rest, p);
    var s := t + rest;
    forall j: nat | j < |t| ensures !At(s, p, j) {
      if At(s, p, j) { AtChar(s, p, j, j); assert false; }
    }
    forall j | |t| <= j ensures At(s, p, j) == At(rest, p, j - |t|) {
      AtRight(t, rest, p, j - |t|);
    }
    if Find(rest, p).Some? {
      FindIs(s, p, |t| + Find(rest, p).value);
    } else {
      FindIsNone(s, p);
    }
  }

  lemma FindHere(p: string, rest: string)
    ensures Find(p + rest, p) == Some(0)
  {
    AtLeft(p, rest, p, 0);
    FindIs(p + rest, p, 0);
  }

  lemma ScanFree(t: string, rest: string, open: string, close: string)
    requires open != "" && Free(t, open[0])
    ensures Scan(t + rest, open, close) == Scanned(t + Scan(rest, open, close).text, Scan(rest, open, close).blocks)
  {
    FindPastFree(t, rest, open);
    if Find(rest, open).Some? {
      ScanPast(t, rest, open, close, Find(rest, open).value);
    }
  }

  /** When the leftmost hit of `t + rest` is the one of `rest`, `t` stays and the scan goes on as in `rest`. */
  lemma ScanPast(t: string, rest: string, open: string, close: string, i: nat)
    requires open != "" && Find(rest, open) == Some(i) && Find(t + rest, open) == Some(|t| + i)
    ensures Scan(t + rest, open, close) == Scanned(t + Scan(rest, open, close).text, Scan(rest, open, close).blocks)
  {
    hide Find, Resume;
    var before, after := rest[..i], rest[i + |open|..];
    SplitAtHit(rest, open, i);
    Reassociate(t, before, open + after);
    ScanAt(t + rest, open, close, t + before, after);
    ResumeShift(t, before, after, open, close);
  }

  lemma ResumeShift(t: string, before: string, after: string, open: string, close: string)
    requires open != ""
    ensures Resume(t + before, after, open, close)
         == Scanned(t + Resume(before, after, open, close).text, Resume(before, after, open, close).blocks)
  {
    hide Scan, SplitAtClose;
    Reassociate(t, before, Scan(SplitAtClose(after, close).more, open, close).text);
  }

  lemma ScanBlock(body: string, rest: string, open: string, close: string)
    requires open != "" && close != "" && Free(body, close[0])
    ensures Scan(open + body + close + rest, open, close)
         == Scanned(Scan(rest, open, close).text, [body] + Scan(rest, open, close).blocks)
  {
    var s := open + body + close + rest;
    var after := body + (close + rest);
    assert s == open + after;
    FindHere(open, after);
    FindHere(close, rest);
    FindPastFree(body, close + rest, close);
    assert s[|open|..] == after;
    assert after[|body| + |close|..] == rest && after[..|body|] == body;
  }

  lemma {:induction false} FencePass(ps: seq<Piece>)
    requires Plainly(ps)
    ensures Scan(Render(ps), CODE_MARKER, CODE_CLOSE) == Scanned(Render(WithoutFences(ps)), FenceBodies(ps))
  {
    if ps == [] {
      NoMarkerInEmpty();
    } else {
      var p, rest := ps[0], ps[1..];
      assert p in ps;
      FencePass(rest);
      FenceStep(p, Render(rest));
      if p.Fenced? {
        assert WithoutFences(ps) == WithoutFences(rest);
      } else {
        RenderCons(p, WithoutFences(rest));
        assert FenceBodies(ps) == FenceBodies(rest);
      }
    }
  }

  lemma FenceStep(p: Piece, rest: string)
    requires Plainly([p])
    ensures var later := Scan(rest, CODE_MARKER, CODE_CLOSE);
      Scan(RenderPiece(p) + rest, CODE_MARKER, CODE_CLOSE) ==
      if p.Fenced? then Scanned(later.text, [p.body] + later.blocks)
      else Scanned(RenderPiece(p) + later.text, later.blocks)
  {
    assert p in [p];
    var open, close := CODE_MARKER, CODE_CLOSE;
    if p.Fenced? {
      ScanBlock(p.body, rest, open, close);
    } else {
      ScanFree(RenderPiece(p), rest, open, close);
    }
  }

  lemma RenderCons(p: Piece, ps: seq<Piece>)
    ensures Render([p] + ps) == RenderPiece(p) + Render(ps)
  {
    assert ([p] + ps)[1..] == ps;
  }

  lemma NoMarkerInEmpty()
    ensures Scan("", CODE_MARKER, CODE_CLOSE) == Scanned("", []) && Scan("", XML_OPEN, XML_CLOSE) == Scanned("", [])
  {
  }

  lemma {:induction false} TagPass(ps: seq<Piece>)
    requires Plainly(ps)
    ensures Scan(Render(WithoutFences(ps)), XML_OPEN, XML_CLOSE) == Scanned(PlainText(ps), TagBodies(ps))
  {
    if ps != [] {
      var p, rest := ps[0], ps[1..];
      TagPass(rest);
      assert p in ps;
      RenderCons(p, WithoutFences(rest));
      match p {
        case Tagged(b) => ScanBlock(b, Render(WithoutFences(rest)), XML_OPEN, XML_CLOSE);
        case Plain(t) => ScanFree(t, Render(WithoutFences(rest)), XML_OPEN, XML_CLOSE);
        case Fenced(_) => assert WithoutFences(ps) == WithoutFences(rest);
      }
    } else {
      NoMarkerInEmpty();
    }
  }

  // ---- Main results ----

  /** Round trip: whatever order the pieces are rendered in, parsing returns the trimmed text, then the
      fenced requests in order, then the tagged ones in order. */
  lemma ParseOfRender(ps: seq<Piece>, decode: Decoder)
    requires Plainly(ps)
    ensures Parsed(Render(ps), decode)
         == (Trim(PlainText(ps)), Decoded(decode, FenceBodies(ps)) + Decoded(decode, TagBodies(ps)))
  {
    FencePass(ps);
    TagPass(ps);
  }

  /** With an encoder the decoder inverts, every request comes back. */
  lemma {:induction false} EncodedRequestsComeBack(decode: Decoder, encode: Request -> string, bodies: seq<string>,
                                                   requests: seq<Request>)
    requires forall r :: decode(Trim(encode(r))) == Some(r)
    requires |bodies| == |requests| && forall i :: 0 <= i < |bodies| ==> bodies[i] == encode(requests[i])
    ensures Decoded(decode, bodies) == requests
  {
    if bodies != [] {
      EncodedRequestsComeBack(decode, encode, bodies[1..], requests[1..]);
      assert requests == [requests[0]] + requests[1..];
    }
  }

  // ---- Blocks that are never closed ----

  /** Behind an opening marker, what follows stays in the text as a whole, and is a block as a whole, exactly when
      no closing marker follows; otherwise the block is gone from the text. */
  lemma BodyStaysIffUnclosed(before: string, after: string, open: string, close: string)
    requires open != "" && close != "" && Find(before + (open + after), open) == Some(|before|)
    ensures var scanned := Scan(before + (open + after), open, close);
      var rest := Scan(after, open, close);
      scanned == Scanned(before + rest.text, [after] + rest.blocks) <==> Find(after, close).None?
    ensures Find(after, close).Some? ==>
      var j := Find(after, close).value;
      var rest := Scan(after[j + |close|..], open, close);
      Scan(before + (open + after), open, close) == Scanned(before + rest.text, [after[..j]] + rest.blocks)
  {
    ScanAt(before + (open + after), open, close, before, after);
    if Find(after, close).Some? {
      var j := Find(after, close).value;
      var rest := Scan(after[j + |close|..], open, close);
      assert ([after[..j]] + rest.blocks)[0] == after[..j] != after;
      assert ([after] + Scan(after, open, close).blocks)[0] == after;
    }
  }

  /** So a fence that is never closed is decoded and also stays in the text. */
  lemma UnclosedFenceKept(t: string, body: string)
    requires Free(t, '`') && Free(body, '`')
    ensures Scan(t + (CODE_MARKER + body), CODE_MARKER, CODE_CLOSE) == Scanned(t + body, [body])
  {
    FindHere(CODE_MARKER, body);
    FindPastFree(t, CODE_MARKER + body, CODE_MARKER);
    FreeHasNo(body, CODE_CLOSE);
    FreeHasNo(body, CODE_MARKER);
    BodyStaysIffUnclosed(t, body, CODE_MARKER, CODE_CLOSE);
  }

  lemma FreeHasNo(s: string, p: string)
    requires p != "" && Free(s, p[0])
    ensures Find(s, p).None?
  {
    FindFacts(s, p);
    if Find(s, p).Some? { AtChar(s, p, Find(s, p).value, Find(s, p).value); }
  }

  // ---- Markers in the stripped text ----

  /** The pieces of a text that a pass keeps, in order: what stands before each opening marker, and the rest. */
  function Gaps(s: string, open: string, close: string): seq<string>
    requires open != ""
    decreases |s|
  {
    match Find(s, open)
    case None => [s]
    case Some(i) => [s[..i]] + Gaps(SplitAtClose(s[i + |open|..], close).more, open, close)
  }

  function Joined(pieces: seq<string>): string {
    if pieces == [] then "" else pieces[0] + Joined(pieces[1..])
  }

  /** `a` ends in the first `c` characters of the marker, and `b` begins with the others. */
  predicate Meets(a: string, b: string, marker: string, c: int) {
    0 < c < |marker| && EndsWith(a, marker[..c]) && StartsWith(b, marker[c..])
  }

  /** At some junction the pieces put the marker together. */
  ghost predicate Spliced(pieces: seq<string>, marker: string) {
    pieces != [] && ((exists c :: Meets(pieces[0], Joined(pieces[1..]), marker, c)) || Spliced(pieces[1..], marker))
  }

  /** Some piece holds the marker by itself. */
  predicate Holds(pieces: seq<string>, marker: string) {
    pieces != [] && (Find(pieces[0], marker).Some? || Holds(pieces[1..], marker))
  }

  /** A marker in a text put together from two lies in one of them or across the junction. */
  lemma FindInTwo(a: string, b: string, marker: string)
    requires marker != ""
    ensures Find(a + b, marker).Some?
       <==> Find(a, marker).Some? || Find(b, marker).Some? || exists c :: Meets(a, b, marker, c)
  {
    FindFacts(a, marker);
    FindFacts(b, marker);
    FindFacts(a + b, marker);
    if Find(a + b, marker).Some? {
      var i := Find(a + b, marker).value;
      if i + |marker| <= |a| {
        AtLeft(a, b, marker, i);
      } else if |a| <= i {
        AtRight(a, b, marker, i - |a|);
      } else {
        AcrossMeets(a, b, marker, i);
      }
    }
    if Find(a, marker).Some? {
      AtLeft(a, b, marker, Find(a, marker).value);
    }
    if Find(b, marker).Some? {
      AtRight(a, b, marker, Find(b, marker).value);
    }
    if c :| Meets(a, b, marker, c) {
      MeetsAcross(a, b, marker, c);
    }
  }

  lemma AcrossMeets(a: string, b: string, marker: string, i: int)
    requires At(a + b, marker, i) && i < |a| < i + |marker|
    ensures Meets(a, b, marker, |a| - i)
  {
    var c := |a| - i;
    assert (a + b)[i..i + |marker|] == a[i..] + b[..|marker| - c];
    assert marker[..c] == a[i..] && marker[c..] == b[..|marker| - c];
  }

  lemma MeetsAcross(a: string, b: string, marker: string, c: int)
    requires Meets(a, b, marker, c)
    ensures At(a + b, marker, |a| - c)
  {
    assert (a + b)[|a| - c..|a| - c + |marker|] == a[|a| - c..] + b[..|marker| - c];
    assert marker == marker[..c] + marker[c..];
  }

  lemma {:induction false} FindInJoined(pieces: seq<string>, marker: string)
    requires marker != ""
    ensures Find(Joined(pieces), marker).Some? <==> Holds(pieces, marker) || Spliced(pieces, marker)
  {
    hide Find, Meets;
    if pieces == [] {
      FreeHasNo("", marker);
    } else {
      FindInJoined(pieces[1..], marker);
      FindInTwo(pieces[0], Joined(pieces[1..]), marker);
    }
  }

  /** What a pass leaves is its gaps, and none of them holds the opening marker by itself. */
  lemma {:induction false} ScanKeepsGaps(s: string, open: string, close: string)
    requires open != ""
    ensures Scan(s, open, close).text == Joined(Gaps(s, open, close)) && !Holds(Gaps(s, open, close), open)
    decreases |s|
  {
    hide Joined, Holds, SplitAtClose;
    match Find(s, open) {
      case None => JoinedOne(s, open);
      case Some(i) =>
        var more := SplitAtClose(s[i + |open|..], close).more;
        ScanKeepsGaps(more, open, close);
        JoinedCons(s[..i], Gaps(more, open, close), open);
        NoneBefore(s, open, i);
    }
  }

  lemma NoneBefore(s: string, p: string, i: nat)
    requires p != "" && Find(s, p) == Some(i)
    ensures Find(s[..i], p).None?
  {
    FindFacts(s, p);
    FindFacts(s[..i], p);
    assert s == s[..i] + s[i..];
    if Find(s[..i], p).Some? { AtLeft(s[..i], s[i..], p, Find(s[..i], p).value); }
  }

  lemma JoinedOne(s: string, marker: string)
    ensures Joined([s]) == s && (Holds([s], marker) <==> Find(s, marker).Some?)
  {
    assert [s][1..] == [];
  }

  lemma JoinedCons(s: string, pieces: seq<string>, marker: string)
    ensures Joined([s] + pieces) == s + Joined(pieces)
    ensures Holds([s] + pieces, marker) <==> Find(s, marker).Some? || Holds(pieces, marker)
  {
    assert ([s] + pieces)[1..] == pieces;
  }

  /** A marker inside a kept piece was in the text before the pass. */
  lemma {:induction false} GapsAreParts(s: string, open: string, close: string, marker: string)
    requires open != "" && marker != "" && Holds(Gaps(s, open, close), marker)
    ensures Find(s, marker).Some?
    decreases |s|
  {
    hide FindFrom, SplitAtClose, Holds;
    match Find(s, open) {
      case None => JoinedOne(s, marker);
      case Some(i) =>
        var after := s[i + |open|..];
        var more := SplitAtClose(after, close).more;
        JoinedCons(s[..i], Gaps(more, open, close), marker);
        assert s == s[..i] + s[i..];
        FindInTwo(s[..i], s[i..], marker);
        if Find(s[..i], marker).None? {
          GapsAreParts(more, open, close, marker);
          MoreIsSuffix(after, close);
          assert s == s[..|s| - |more|] + more;
          FindInTwo(s[..|s| - |more|], more, marker);
        }
    }
  }

  lemma MoreIsSuffix(after: string, close: string)
    ensures var more := SplitAtClose(after, close).more; |more| <= |after| && after[|after| - |more|..] == more
  {
  }

  lemma {:induction false} FindInTrimStart(s: string, marker: string)
    requires marker != "" && !IsSpace(marker[0])
    ensures Find(TrimStart(s), marker).Some? <==> Find(s, marker).Some?
  {
    hide Find, Meets;
    if s != "" && IsSpace(s[0]) {
      FindInTrimStart(s[1..], marker);
      assert s == s[..1] + s[1..];
      FindInTwo(s[..1], s[1..], marker);
      SpaceHasNo(s[0], marker);
      assert s[..1] == [s[0]];
      if c :| Meets([s[0]], s[1..], marker, c) { MeetsEnds([s[0]], s[1..], marker, c); }
    }
  }

  lemma {:induction false} FindInTrimEnd(s: string, marker: string)
    requires marker != "" && !IsSpace(marker[0]) && !IsSpace(marker[|marker| - 1])
    ensures Find(TrimEnd(s), marker).Some? <==> Find(s, marker).Some?
  {
    hide Find, Meets;
    if s != "" && IsSpace(s[|s| - 1]) {
      var front, last := s[..|s| - 1], s[|s| - 1];
      FindInTrimEnd(front, marker);
      assert s == front + [last];
      FindInTwo(front, [last], marker);
      SpaceHasNo(last, marker);
      if c :| Meets(front, [last], marker, c) { MeetsEnds(front, [last], marker, c); }
    }
  }

  lemma SpaceHasNo(c: char, marker: string)
    requires marker != "" && IsSpace(c) && !IsSpace(marker[0])
    ensures Find([c], marker).None?
  {
    FreeHasNo([c], marker);
  }

  lemma MeetsEnds(a: string, b: string, marker: string, c: int)
    requires Meets(a, b, marker, c)
    ensures 0 < c <= |a| && 0 < |marker| - c <= |b| && a[|a| - c] == marker[0]
      && b[|marker| - c - 1] == marker[|marker| - 1]
  {
    AtChar(b, marker[c..], 0, |marker| - c - 1);
    assert a[|a| - c..][0] == marker[..c][0];
  }

  lemma FindInTrim(s: string, marker: string)
    requires marker != "" && !IsSpace(marker[0]) && !IsSpace(marker[|marker| - 1])
    ensures Find(Trim(s), marker).Some? <==> Find(s, marker).Some?
  {
    FindInTrimStart(s, marker);
    FindInTrimEnd(TrimStart(s), marker);
  }

  /** "Content with blocks stripped" for one pass: its opening marker is left in the text exactly when two kept
      pieces put a new one together. */
  lemma StrippedIffNotSpliced(s: string, open: string, close: string)
    requires open != ""
    ensures Find(Scan(s, open, close).text, open).None? <==> !Spliced(Gaps(s, open, close), open)
  {
    ScanKeepsGaps(s, open, close);
    FindInJoined(Gaps(s, open, close), open);
  }

  /** What the second pass of a parse keeps. */
  function KeptPieces(content: string): seq<string> {
    Gaps(Scan(content, CODE_MARKER, CODE_CLOSE).text, XML_OPEN, XML_CLOSE)
  }

  /** The same for the whole parse: a tag marker is left exactly when the second pass splices one. A fence marker is
      left exactly when either pass splices one, the first one's lasting only if the second keeps it in one piece. */
  lemma ParsedIsMarkerFreeIff(content: string, decode: Decoder)
    ensures Find(Parsed(content, decode).0, XML_OPEN).None? <==> !Spliced(KeptPieces(content), XML_OPEN)
    ensures Find(Parsed(content, decode).0, CODE_MARKER).None?
       <==> !Spliced(KeptPieces(content), CODE_MARKER) && !Holds(KeptPieces(content), CODE_MARKER)
    ensures Holds(KeptPieces(content), CODE_MARKER) ==> Spliced(Gaps(content, CODE_MARKER, CODE_CLOSE), CODE_MARKER)
  {
    hide Find, Spliced, Holds, Scan, Gaps, Joined, Trim;
    var fenced := Scan(content, CODE_MARKER, CODE_CLOSE).text;
    var text := Scan(fenced, XML_OPEN, XML_CLOSE).text;
    FindInTrim(text, XML_OPEN);
    FindInTrim(text, CODE_MARKER);
    ScanKeepsGaps(fenced, XML_OPEN, XML_CLOSE);
    FindInJoined(KeptPieces(content), XML_OPEN);
    FindInJoined(KeptPieces(content), CODE_MARKER);
    if Holds(KeptPieces(content), CODE_MARKER) {
      GapsAreParts(fenced, XML_OPEN, XML_CLOSE, CODE_MARKER);
      StrippedIffNotSpliced(content, CODE_MARKER, CODE_CLOSE);
    }
  }

  /** It does happen: all that is left of this text is a fence marker. */
  lemma StrippingCanSpliceMarker(decode: Decoder)
    ensures Parsed("``" + (CODE_MARKER + "" + CODE_CLOSE + "`tool_request"), decode).0 == CODE_MARKER
  {
    hide Trim, Scan;
    FirstPassSplices();
    NoTagInFence();
    MarkerTrims();
  }

  lemma NoTagInFence()
    ensures Scan(CODE_MARKER, XML_OPEN, XML_CLOSE) == Scanned(CODE_MARKER, [])
  {
    FreeHasNo(CODE_MARKER, XML_OPEN);
  }

  lemma MarkerTrims()
    ensures Trim(CODE_MARKER) == CODE_MARKER
  {
  }

  lemma FirstPassSplices()
    ensures Scan("``" + (CODE_MARKER + "" + CODE_CLOSE + "`tool_request"), CODE_MARKER, CODE_CLOSE).text == CODE_MARKER
  {
    var open, close := CODE_MARKER, CODE_CLOSE;
    var tail := open + "" + close + "`tool_request";
    ScanBlock("", "`tool_request", open, close);
    ShortHasNoMarker();
    FirstHitAfterTwo(tail);
    FindIs(tail, open, 0);
    ScanPast("``", tail, open, close, 0);
    SplicedMarker();
  }

  lemma SplicedMarker()
    ensures "``" + "`tool_request" == CODE_MARKER
  {
  }

  /** Two more backticks in front of a marker do not make an earlier one. */
  lemma FirstHitAfterTwo(tail: string)
    requires At(tail, CODE_MARKER, 0)
    ensures Find("``" + tail, CODE_MARKER) == Some(2)
  {
    var s := "``" + tail;
    AtRight("``", tail, CODE_MARKER, 0);
    AtChar(tail, CODE_MARKER, 0, 1);
    AtChar(tail, CODE_MARKER, 0, 2);
    forall j: nat | j < 2 ensures !At(s, CODE_MARKER, j) {
      if At(s, CODE_MARKER, j) { AtChar(s, CODE_MARKER, j, j + 3); assert false; }
    }
    FindIs(s, CODE_MARKER, 2);
  }

  lemma ShortHasNoMarker()
    ensures Scan("`tool_request", CODE_MARKER, CODE_CLOSE) == Scanned("`tool_request", [])
  {
  }
}
