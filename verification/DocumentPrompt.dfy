/** Reading a document prompt back: sections, labelled chunks, and the trim that keeps labels. */
module DocumentPrompt {
  import opened Common
  import opened Text

  const TRUNCATION_MARKER := "\n...[truncated]...\n"
  const DOCUMENT_TRUNCATION_MARKER := "[DOCUMENT_TRUNCATED]"
  const DOCUMENTS_SECTION_HEADER := "# ДОКУМЕНТЫ"
  const USER_REQUEST_SECTION_HEADER := "# ЗАПРОС ПОЛЬЗОВАТЕЛЯ"
  const SECTION_DIVIDER := "\n\n---\n\n"
  const LABEL_START := "[Документ "

  // ---------------------------------------------------------------- truncation

  /** `truncate_text_preserving_ends`. */
  function Truncate(text: string, limit: int): string {
    var stripped := Strip(text);
    var marker := |TRUNCATION_MARKER|;
    if limit <= 0 then ""
    else if |stripped| <= limit then stripped
    else if limit <= marker then stripped[..limit]
    else
      var preserved := limit - marker;
      var head := Max(1, preserved / 2);
      var tail := Max(1, preserved - head);
      stripped[..head] + TRUNCATION_MARKER + stripped[|stripped| - tail..]
  }

  /** The one limit at which the truncation does not keep its bound. */
  predicate Overshoots(text: string, limit: int) {
    limit == |TRUNCATION_MARKER| + 1 && |Strip(text)| > limit
  }

  /** Exact length of a truncation: the stripped length or the limit, one more exactly where it overshoots. */
  lemma TruncateLength(text: string, limit: int)
    ensures |Truncate(text, limit)|
            == if limit <= 0 then 0
               else if |Strip(text)| <= limit then |Strip(text)|
               else if Overshoots(text, limit) then limit + 1
               else limit
  {
    assert |TRUNCATION_MARKER| == 19;
  }

  /** A truncation starts as the stripped text does, and ends as it does once the marker fits. */
  lemma TruncateKeepsEnds(text: string, limit: int)
    requires 0 < limit < |Strip(text)|
    ensures Truncate(text, limit)[0] == Strip(text)[0]
    ensures limit > |TRUNCATION_MARKER| ==>
              Truncate(text, limit)[|Truncate(text, limit)| - 1] == Strip(text)[|Strip(text)| - 1]
  {
    assert |TRUNCATION_MARKER| == 19;
  }

  /** Once a character fits on each side of the marker, the two ends kept share the rest of the limit evenly. */
  lemma TruncateHalves(text: string, limit: int, head: nat, tail: nat)
    requires |TRUNCATION_MARKER| + 1 < limit < |Strip(text)|
    requires head + tail == limit - |TRUNCATION_MARKER| && head <= tail <= head + 1
    ensures Truncate(text, limit) == Strip(text)[..head] + TRUNCATION_MARKER + Strip(text)[|Strip(text)| - tail..]
  {
    hide Strip;
    assert head == (limit - |TRUNCATION_MARKER|) / 2 >= 1;
  }

  // ---------------------------------------------------------------- sections

  datatype Sections = Sections(prefix: string, block: string, suffix: string)

  /** `_parse_document_prompt_sections`. */
  function ParseSections(prompt: string): Option<Sections> {
    match Find(prompt, DOCUMENTS_SECTION_HEADER)
    case None => None
    case Some(i) =>
      FindFromSound(prompt, DOCUMENTS_SECTION_HEADER, 0);
      var rest := prompt[i + |DOCUMENTS_SECTION_HEADER|..];
      match Find(rest, USER_REQUEST_SECTION_HEADER)
      case None => None
      case Some(j) =>
        FindFromSound(rest, USER_REQUEST_SECTION_HEADER, 0);
        var section := rest[..j];
        match RFind(section, SECTION_DIVIDER)
        case None => None
        case Some(k) =>
          RFindFromSound(section, SECTION_DIVIDER, |section|);
          Some(Sections(prompt[..i] + DOCUMENTS_SECTION_HEADER + "\n\n",
                        Strip(section[..k]),
                        SECTION_DIVIDER + USER_REQUEST_SECTION_HEADER + rest[j + |USER_REQUEST_SECTION_HEADER|..]))
  }

  // ---------------------------------------------------------------- lines

  predicate LineEnd(c: char) {
    '\n' <= c <= '\r' || '\U{1C}' <= c <= '\U{1E}' || c == '\U{85}' || c == '\U{2028}' || c == '\U{2029}'
  }

  /** The length of the first line. */
  function FirstLine(s: string): (n: nat)
    ensures n <= |s|
    ensures forall i | 0 <= i < n :: !LineEnd(s[i])
    ensures n < |s| ==> LineEnd(s[n])
  {
    if s == [] || LineEnd(s[0]) then 0 else 1 + FirstLine(s[1..])
  }

  /** `str.splitlines`. */
  function Lines(s: string): seq<string>
    decreases |s|
  {
    if s == [] then []
    else
      var n := FirstLine(s);
      if n == |s| then [s]
      else
        var width := if n + 1 < |s| && s[n] == '\r' && s[n + 1] == '\n' then 2 else 1;
        [s[..n]] + Lines(s[n + width..])
  }

  predicate OneLine(s: string) { forall i | 0 <= i < |s| :: !LineEnd(s[i]) }

  /** Newline is the only line separator. */
  predicate NewlinesOnly(s: string) { forall i | 0 <= i < |s| && LineEnd(s[i]) :: s[i] == '\n' }

  lemma {:induction false} FirstLineIs(a: string, b: string)
    requires OneLine(a) && (b == [] || LineEnd(b[0]))
    ensures FirstLine(a + b) == |a|
  {
    hide LineEnd;
    if a == [] {
      assert a + b == b;
    } else {
      assert (a + b)[0] == a[0] && (a + b)[1..] == a[1..] + b;
      FirstLineIs(a[1..], b);
    }
  }

  lemma LinesCons(a: string, b: string)
    requires OneLine(a)
    ensures Lines(a + "\n" + b) == [a] + Lines(b)
  {
    FirstLineIs(a, "\n" + b);
    assert a + "\n" + b == a + ("\n" + b);
    assert (a + "\n" + b)[..|a|] == a && (a + "\n" + b)[|a| + 1..] == b;
  }

  lemma LinesOne(a: string)
    requires OneLine(a) && a != []
    ensures Lines(a) == [a]
  {
    assert a + [] == a;
    FirstLineIs(a, []);
  }

  /** Lines of a text that does not end in a separator, followed by a newline and more. */
  lemma {:induction false} LinesAppend(a: string, b: string)
    requires a != [] && NewlinesOnly(a) && !LineEnd(a[|a| - 1])
    ensures Lines(a + "\n" + b) == Lines(a) + Lines(b)
    ensures Join(Lines(a), "\n") == a && Lines(a) != []
    decreases |a|
  {
    hide Lines, FirstLine;
    var n := FirstLine(a);
    if n == |a| {
      LinesCons(a, b);
      LinesOne(a);
    } else {
      var first, rest := a[..n], a[n + 1..];
      assert a == first + "\n" + rest;
      assert NewlinesOnly(rest) by {
        assert forall i | 0 <= i < |rest| :: rest[i] == a[n + 1 + i];
      }
      hide Join, NewlinesOnly;
      LinesAppend(rest, b);
      LinesCons(first, rest);
      LinesCons(first, rest + "\n" + b);
      assert a + "\n" + b == first + "\n" + (rest + "\n" + b);
      JoinCons(first, Lines(rest), "\n");
    }
  }

  // ---------------------------------------------------------------- chunks

  datatype Chunk = Chunk(title: string, content: string)

  predicate IsLabel(line: string) {
    var t := Strip(line);
    LABEL_START <= t && t[|t| - 1] == ']'
  }

  function Close(title: Option<string>, lines: seq<string>): seq<Chunk> {
    if title.Some? then [Chunk(title.value, Strip(Join(lines, "\n")))] else []
  }

  /** The chunks of some lines, after a label and its lines so far. */
  function ChunksOf(lines: seq<string>, title: Option<string>, seen: seq<string>): seq<Chunk> {
    if lines == [] then Close(title, seen)
    else if IsLabel(lines[0]) then Close(title, seen) + ChunksOf(lines[1..], Some(Strip(lines[0])), [])
    else ChunksOf(lines[1..], title, if title.Some? then seen + [lines[0]] else seen)
  }

  /** `_split_document_chunks`. */
  method SplitDocumentChunks(block: string) returns (chunks: seq<Chunk>)
    ensures chunks == ChunksOf(Lines(block), None, [])
  {
    hide Lines, IsLabel, Strip, Join;
    chunks := [];
    var title: Option<string> := None;
    var current: seq<string> := [];
    var lines := Lines(block);
    for i := 0 to |lines|
      invariant chunks + ChunksOf(lines[i..], title, current) == ChunksOf(lines, None, [])
    {
      assert lines[i..][1..] == lines[i + 1..];
      if IsLabel(lines[i]) {
        if title.Some? {
          chunks := chunks + [Chunk(title.value, Strip(Join(current, "\n")))];
        }
        title := Some(Strip(lines[i]));
        current := [];
      } else if title.Some? {
        current := current + [lines[i]];
      }
    }
    if title.Some? {
      chunks := chunks + [Chunk(title.value, Strip(Join(current, "\n")))];
    }
  }

  function FullChunk(c: Chunk): string {
    if c.content != "" then c.title + "\n" + c.content else c.title
  }

  function FullChunks(cs: seq<Chunk>): (r: seq<string>)
    ensures |r| == |cs|
  {
    if cs == [] then [] else [FullChunk(cs[0])] + FullChunks(cs[1..])
  }

  /** A chunk as the prompt prints it, whatever the lines of its text look like. */
  predicate TitledChunk(c: Chunk) {
    && OneLine(c.title) && Trim(c.title) && IsLabel(c.title)
    && c.content != "" && Trim(c.content) && NewlinesOnly(c.content)
  }

  /** No line of the text has the shape of a label. */
  predicate LabelFree(content: string) {
    forall i | 0 <= i < |Lines(content)| :: !IsLabel(Lines(content)[i])
  }

  predicate PrintedChunk(c: Chunk) { TitledChunk(c) && LabelFree(c.content) }

  lemma {:induction false} PlainLinesCollect(plain: seq<string>, rest: seq<string>, title: string, seen: seq<string>)
    requires forall i | 0 <= i < |plain| :: !IsLabel(plain[i])
    ensures ChunksOf(plain + rest, Some(title), seen) == ChunksOf(rest, Some(title), seen + plain)
    decreases |plain|
  {
    if plain == [] {
      assert plain + rest == rest && seen + plain == seen;
    } else {
      assert (plain + rest)[0] == plain[0] && (plain + rest)[1..] == plain[1..] + rest;
      PlainLinesCollect(plain[1..], rest, title, seen + [plain[0]]);
      assert seen + [plain[0]] + plain[1..] == seen + plain;
    }
  }

  lemma BlankIsOneLine()
    ensures OneLine("")
  {
  }

  lemma BlankIsNoLabel()
    ensures !IsLabel("")
  {
  }

  lemma StripNewline(c: string)
    requires c != "" && Trim(c)
    ensures Strip(c + "\n") == c
  {
    assert LStrip(c + "\n") == c + "\n";
    assert (c + "\n")[..|c|] == c;
    assert RStrip(c + "\n") == RStrip(c);
    StripFacts(c);
  }

  lemma TrimEndsLine(c: string)
    requires c != "" && Trim(c)
    ensures !LineEnd(c[|c| - 1])
  {
  }

  /** The lines of one printed document, followed by the next or by nothing. */
  lemma ChunkLines(c: Chunk, rest: string)
    requires OneLine(c.title) && c.content != "" && Trim(c.content) && NewlinesOnly(c.content)
    ensures Lines(FullChunk(c)) == [c.title] + Lines(c.content)
    ensures Lines(FullChunk(c) + "\n\n" + rest) == [c.title] + Lines(c.content) + [""] + Lines(rest)
  {
    hide Lines, IsLabel, NewlinesOnly, OneLine;
    TrimEndsLine(c.content);
    LinesCons(c.title, c.content);
    assert OneLine("") by { BlankIsOneLine(); }
    LinesCons("", rest);
    assert "" + "\n" + rest == "\n" + rest;
    LinesAppend(c.content, "\n" + rest);
    LinesCons(c.title, c.content + "\n" + ("\n" + rest));
    assert FullChunk(c) + "\n\n" + rest == c.title + "\n" + (c.content + "\n" + ("\n" + rest));
  }

  /**
    Printed documents are read back exactly: joining labelled chunks and splitting the block
    gives the chunks again, in order, with their labels and contents.
  */
  lemma {:induction false} ChunksRoundTrip(cs: seq<Chunk>)
    requires forall i | 0 <= i < |cs| :: PrintedChunk(cs[i])
    ensures ChunksOf(Lines(Join(FullChunks(cs), "\n\n")), None, []) == cs
  {
    if cs != [] {
      LabelledRest(cs, None, []);
    }
  }

  /** The same after an open chunk. */
  lemma {:induction false} LabelledRest(cs: seq<Chunk>, title: Option<string>, seen: seq<string>)
    requires cs != [] && forall i | 0 <= i < |cs| :: PrintedChunk(cs[i])
    ensures ChunksOf(Lines(Join(FullChunks(cs), "\n\n")), title, seen) == Close(title, seen) + cs
    decreases |cs|
  {
    hide Lines, IsLabel, Strip, Join, ChunksOf, LineEnd, NewlinesOnly;
    var c := cs[0];
    TrimEndsLine(c.content);
    LinesAppend(c.content, "");
    var lines := Lines(c.content);
    var rest := Join(FullChunks(cs[1..]), "\n\n");
    ChunkLines(c, rest);
    StripFacts(c.content);
    if |cs| == 1 {
      JoinOne(FullChunk(c), "\n\n");
      assert FullChunks(cs) == [FullChunk(c)];
      OpenChunk(c, lines, title, seen);
      PlainLinesCollect(lines, [], c.title, []);
      assert lines + [] == lines && [] + lines == lines;
      ChunksEnd(c.title, lines);
      assert cs == [c];
    } else {
      JoinCons(FullChunk(c), FullChunks(cs[1..]), "\n\n");
      var plain := lines + [""];
      assert [c.title] + lines + [""] + Lines(rest) == [c.title] + (plain + Lines(rest));
      OpenChunk(c, plain + Lines(rest), title, seen);
      BlankIsNoLabel();
      PlainLinesCollect(plain, Lines(rest), c.title, []);
      assert [] + plain == plain;
      LabelledRest(cs[1..], Some(c.title), plain);
      JoinAppend(lines, "\n", "");
      StripNewline(c.content);
      assert c.content + "\n" + "" == c.content + "\n";
      assert cs == [c] + cs[1..];
    }
  }

  lemma ChunksEnd(title: string, seen: seq<string>)
    ensures ChunksOf([], Some(title), seen) == [Chunk(title, Strip(Join(seen, "\n")))]
  {
  }

  lemma OpenChunk(c: Chunk, rest: seq<string>, title: Option<string>, seen: seq<string>)
    requires PrintedChunk(c)
    ensures ChunksOf([c.title] + rest, title, seen) == Close(title, seen) + ChunksOf(rest, Some(c.title), [])
  {
    StripFacts(c.title);
    assert ([c.title] + rest)[1..] == rest;
  }

  // ---------------------------------------------------------------- trimming a block

  /** `_truncate_document_chunk_content`. */
  function TruncateChunk(content: string, limit: int): string {
    var stripped := Strip(content);
    var marker := "\n" + DOCUMENT_TRUNCATION_MARKER;
    if limit <= 0 then ""
    else if |stripped| <= limit then stripped
    else if limit <= |marker| then
      if limit <= |DOCUMENT_TRUNCATION_MARKER| then DOCUMENT_TRUNCATION_MARKER[..limit] else DOCUMENT_TRUNCATION_MARKER
    else
      var snippet := RStrip(stripped[..limit - |marker|]);
      if snippet != "" then snippet + marker else DOCUMENT_TRUNCATION_MARKER
  }

  lemma TruncateChunkFits(content: string, limit: int)
    ensures |TruncateChunk(content, limit)| <= Max(0, limit)
  {
    var stripped := Strip(content);
    assert |DOCUMENT_TRUNCATION_MARKER| == 20;
    if 21 < limit < |stripped| {
      RStripFacts(stripped[..limit - 21]);
    }
  }

  /** What is cut when a chunk is shortened; an empty chunk shows the marker. */
  function CutSource(c: Chunk): string {
    if c.content != "" then c.content else DOCUMENT_TRUNCATION_MARKER
  }

  /**
    A cut of a longer text is the longest prefix that leaves room for the marker on a line of its
    own, less trailing blanks, with that line; where no text is left, the marker, cut if need be.
  */
  lemma TruncateChunkShape(content: string, limit: int)
    requires 0 < limit < |Strip(content)|
    ensures var cut, marker := TruncateChunk(content, limit), DOCUMENT_TRUNCATION_MARKER;
            if limit <= |marker| + 1 then cut == marker[..Min(limit, |marker|)]
            else
              var kept := RStrip(Strip(content)[..limit - |marker| - 1]);
              && kept != "" && cut == kept + "\n" + marker
  {
    hide Strip, RStrip;
    assert |DOCUMENT_TRUNCATION_MARKER| == 20;
    if limit > 21 {
      var prefix := Strip(content)[..limit - 21];
      StripFacts(content);
      RStripFacts(prefix);
      assert RStrip(prefix) + "\n" + DOCUMENT_TRUNCATION_MARKER == RStrip(prefix) + ("\n" + DOCUMENT_TRUNCATION_MARKER);
    }
  }

  /** The part of a chunk that is kept when it does not fit whole; `None` when not even its label fits. */
  function Partial(c: Chunk, room: int): Option<string> {
    if room <= |c.title| then None
    else if room <= |c.title| + 1 + |DOCUMENT_TRUNCATION_MARKER| then Some(c.title)
    else
      var cut := TruncateChunk(CutSource(c), room - |c.title| - 1);
      if cut == "" then Some(c.title) else Some(c.title + "\n" + cut)
  }

  function Gap(kept: nat): nat { if kept == 0 then 0 else 2 }

  /** The chunks kept from here on, with `used` characters taken by the `kept` chunks before. */
  function Retain(cs: seq<Chunk>, limit: int, used: nat, kept: nat): seq<string> {
    if cs == [] then []
    else
      var full := FullChunk(cs[0]);
      if used + Gap(kept) + |full| <= limit then
        [full] + Retain(cs[1..], limit, used + Gap(kept) + |full|, kept + 1)
      else
        match Partial(cs[0], limit - used - Gap(kept))
        case None => []
        case Some(text) => [text]
  }

  /** `_trim_document_block_preserving_labels`. */
  function TrimBlock(block: string, limit: int): string {
    var stripped := Strip(block);
    if limit <= 0 then ""
    else if |stripped| <= limit then stripped
    else
      var retained := Retain(ChunksOf(Lines(stripped), None, []), limit, 0, 0);
      if retained == [] then Truncate(stripped, limit) else Join(retained, "\n\n")
  }

  method TrimDocumentBlock(block: string, limit: int) returns (out: string)
    ensures out == TrimBlock(block, limit)
  {
    hide Lines, Strip, Join, ChunksOf, Truncate, TruncateChunk, FullChunk, CutSource;
    if limit <= 0 {
      return "";
    }
    var stripped := Strip(block);
    if |stripped| <= limit {
      return stripped;
    }
    var chunks := SplitDocumentChunks(stripped);
    var retained: seq<string> := [];
    var used: nat := 0;
    ghost var all := Retain(chunks, limit, 0, 0);
    var i := 0;
    while i < |chunks|
      invariant i <= |chunks|
      invariant all == retained + Retain(chunks[i..], limit, used, |retained|)
    {
      assert chunks[i..][1..] == chunks[i + 1..];
      var c := chunks[i];
      var full := FullChunk(c);
      var gap := Gap(|retained|);
      if used + gap + |full| <= limit {
        retained := retained + [full];
        used := used + gap + |full|;
        i := i + 1;
        continue;
      }
      var room := limit - used - gap;
      if room <= |c.title| {
        break;
      }
      if room <= |c.title| + 1 + |DOCUMENT_TRUNCATION_MARKER| {
        retained := retained + [c.title];
        break;
      }
      var cut := TruncateChunk(CutSource(c), room - |c.title| - 1);
      if cut == "" {
        retained := retained + [c.title];
      } else {
        retained := retained + [c.title + "\n" + cut];
      }
      break;
    }
    assert retained == all;
    if retained == [] {
      out := Truncate(stripped, limit);
    } else {
      out := Join(retained, "\n\n");
    }
  }

  /** A kept partial chunk: the label, and possibly a cut of the content. */
  ghost predicate PartOf(text: string, c: Chunk) {
    || text == c.title
    || exists n: int :: text == c.title + "\n" + TruncateChunk(CutSource(c), n)
  }

  /**
    What a trim keeps: whole chunks from the front, in order, and after them at most one chunk
    that was shortened; the label of every kept chunk is whole.
  */
  ghost predicate KeptInOrder(kept: seq<string>, cs: seq<Chunk>) {
    || (|kept| <= |cs| && kept == FullChunks(cs)[..|kept|])
    || (0 < |kept| <= |cs| && kept[..|kept| - 1] == FullChunks(cs)[..|kept| - 1]
        && PartOf(kept[|kept| - 1], cs[|kept| - 1]))
  }

  lemma PartialIsPart(c: Chunk, room: int)
    requires Partial(c, room).Some?
    ensures PartOf(Partial(c, room).value, c) && |Partial(c, room).value| <= room
  {
    hide TruncateChunk;
    var cut := TruncateChunk(CutSource(c), room - |c.title| - 1);
    TruncateChunkFits(CutSource(c), room - |c.title| - 1);
  }

  lemma {:induction false} RetainKeeps(cs: seq<Chunk>, limit: int, used: nat, kept: nat)
    ensures KeptInOrder(Retain(cs, limit, used, kept), cs)
    decreases |cs|
  {
    hide FullChunk, Partial, PartOf;
    if cs != [] {
      var c := cs[0];
      if used + Gap(kept) + |FullChunk(c)| <= limit {
        var rest := Retain(cs[1..], limit, used + Gap(kept) + |FullChunk(c)|, kept + 1);
        RetainKeeps(cs[1..], limit, used + Gap(kept) + |FullChunk(c)|, kept + 1);
        ConsKept(c, rest, cs);
      } else if Partial(c, limit - used - Gap(kept)).Some? {
        PartialIsPart(c, limit - used - Gap(kept));
        var r := Retain(cs, limit, used, kept);
        assert r[..0] == FullChunks(cs)[..0];
      }
    }
  }

  lemma ConsKept(c: Chunk, rest: seq<string>, cs: seq<Chunk>)
    requires cs != [] && c == cs[0] && KeptInOrder(rest, cs[1..])
    ensures KeptInOrder([FullChunk(c)] + rest, cs)
  {
    hide FullChunk, PartOf;
    var kept := [FullChunk(c)] + rest;
    var all := FullChunks(cs);
    assert all == [FullChunk(c)] + FullChunks(cs[1..]);
    if |rest| <= |cs[1..]| && rest == FullChunks(cs[1..])[..|rest|] {
      assert kept == all[..|kept|];
    } else {
      assert kept[..|kept| - 1] == [FullChunk(c)] + rest[..|rest| - 1];
      assert all[..|kept| - 1] == [FullChunk(c)] + FullChunks(cs[1..])[..|rest| - 1];
      assert kept[|kept| - 1] == rest[|rest| - 1] && cs[|kept| - 1] == cs[1..][|rest| - 1];
    }
  }

  /** The kept chunks fit in what is left of the limit. */
  lemma {:induction false} RetainFits(cs: seq<Chunk>, limit: int, used: nat, kept: nat)
    requires used <= limit
    ensures var r := Retain(cs, limit, used, kept);
            r != [] ==> used + Gap(kept) + |Join(r, "\n\n")| <= limit
    decreases |cs|
  {
    hide FullChunk, Partial, Join;
    if cs != [] {
      var full := FullChunk(cs[0]);
      if used + Gap(kept) + |full| <= limit {
        var rest := Retain(cs[1..], limit, used + Gap(kept) + |full|, kept + 1);
        RetainFits(cs[1..], limit, used + Gap(kept) + |full|, kept + 1);
        if rest == [] {
          JoinOne(full, "\n\n");
          assert [full] + rest == [full];
        } else {
          JoinCons(full, rest, "\n\n");
        }
      } else if Partial(cs[0], limit - used - Gap(kept)).Some? {
        PartialIsPart(cs[0], limit - used - Gap(kept));
        JoinOne(Partial(cs[0], limit - used - Gap(kept)).value, "\n\n");
      }
    }
  }

  /** What the chunks before take of the limit, followed by the first `n` of these. */
  function Spent(cs: seq<Chunk>, n: nat, used: nat, kept: nat): nat
    requires n <= |cs|
  {
    if n == 0 then used else used + Gap(kept) + |Join(FullChunks(cs)[..n], "\n\n")|
  }

  lemma SpentCons(cs: seq<Chunk>, n: nat, used: nat, kept: nat)
    requires 0 < n <= |cs|
    ensures Spent(cs, n, used, kept) == Spent(cs[1..], n - 1, used + Gap(kept) + |FullChunk(cs[0])|, kept + 1)
  {
    hide FullChunk, Join;
    var first, rest := FullChunk(cs[0]), FullChunks(cs[1..])[..n - 1];
    assert FullChunks(cs)[..n] == [first] + rest;
    if n == 1 {
      JoinOne(first, "\n\n");
      assert [first] + rest == [first];
    } else {
      JoinCons(first, rest, "\n\n");
    }
  }

  /**
    Exactly what is kept. If the first `n` whole chunks fit the limit together and the next does not
    fit with them, those are kept, then what of the next chunk fits in the room left, and no more.
  */
  lemma {:induction false} RetainExactly(cs: seq<Chunk>, limit: int, used: nat, kept: nat, n: nat)
    requires n <= |cs| && (n > 0 ==> Spent(cs, n, used, kept) <= limit)
    requires n < |cs| ==> Spent(cs, n + 1, used, kept) > limit
    ensures var room := limit - Spent(cs, n, used, kept) - Gap(kept + n);
            Retain(cs, limit, used, kept)
            == FullChunks(cs)[..n]
               + if n == |cs| || room <= |cs[n].title| then []
                 else if room <= |cs[n].title| + 1 + |DOCUMENT_TRUNCATION_MARKER| then [cs[n].title]
                 else [FullChunk(Chunk(cs[n].title, TruncateChunk(CutSource(cs[n]), room - |cs[n].title| - 1)))]
    decreases n
  {
    hide FullChunk, Partial, Spent, TruncateChunk, CutSource;
    if n > 0 {
      var used' := used + Gap(kept) + |FullChunk(cs[0])|;
      SpentCons(cs, n, used, kept);
      SpentFirst(cs, used, kept);
      SpentGrows(cs[1..], n - 1, used', kept + 1);
      if n < |cs| {
        SpentCons(cs, n + 1, used, kept);
      }
      RetainExactly(cs[1..], limit, used', kept + 1, n - 1);
      assert FullChunks(cs)[..n] == [FullChunk(cs[0])] + FullChunks(cs[1..])[..n - 1];
    } else {
      SpentFirst(cs, used, kept);
      assert FullChunks(cs)[..0] == [];
      if cs != [] {
        PartialIs(cs[0], limit - used - Gap(kept));
      }
    }
  }

  lemma PartialIs(c: Chunk, room: int)
    requires |FullChunk(c)| > room
    ensures Partial(c, room)
            == if room <= |c.title| then None
               else if room <= |c.title| + 1 + |DOCUMENT_TRUNCATION_MARKER| then Some(c.title)
               else Some(FullChunk(Chunk(c.title, TruncateChunk(CutSource(c), room - |c.title| - 1))))
  {
    hide TruncateChunk;
  }

  lemma SpentFirst(cs: seq<Chunk>, used: nat, kept: nat)
    ensures Spent(cs, 0, used, kept) == used
    ensures cs != [] ==> Spent(cs, 1, used, kept) == used + Gap(kept) + |FullChunk(cs[0])|
  {
    hide FullChunk;
    if cs != [] {
      assert FullChunks(cs)[..1] == [FullChunk(cs[0])];
    }
  }

  lemma SpentGrows(cs: seq<Chunk>, n: nat, used: nat, kept: nat)
    requires n <= |cs|
    ensures Spent(cs, n, used, kept) >= used
  {
    hide FullChunk, Join;
  }

  /** No label fits: there is none, or the first is too long to leave room for anything of its document. */
  predicate NoLabelFits(cs: seq<Chunk>, limit: int) {
    cs == [] || |cs[0].title| > limit || (|cs[0].title| == limit && cs[0].content != "")
  }

  /**
    Whether a block trim falls back to plain truncation at the one bad limit: the block has no
    label line, or its first label alone takes up the limit.
  */
  predicate BlockOvershoots(block: string, limit: int) {
    Overshoots(Strip(block), limit) && NoLabelFits(ChunksOf(Lines(Strip(block)), None, []), limit)
  }

  lemma RetainNothing(cs: seq<Chunk>, limit: int)
    requires limit > 0
    ensures Retain(cs, limit, 0, 0) == [] <==> NoLabelFits(cs, limit)
  {
    hide TruncateChunk;
  }

  // ---------------------------------------------------------------- counting labels

  function LabelCount(lines: seq<string>): nat {
    if lines == [] then 0 else (if IsLabel(lines[0]) then 1 else 0) + LabelCount(lines[1..])
  }

  /** Every label line opens one chunk. */
  lemma {:induction false} ChunkCount(lines: seq<string>, title: Option<string>, seen: seq<string>)
    ensures |ChunksOf(lines, title, seen)| == (if title.Some? then 1 else 0) + LabelCount(lines)
    decreases |lines|
  {
    hide IsLabel, Strip, Join;
    if lines != [] {
      if IsLabel(lines[0]) {
        ChunkCount(lines[1..], Some(Strip(lines[0])), []);
      } else {
        ChunkCount(lines[1..], title, if title.Some? then seen + [lines[0]] else seen);
      }
    }
  }

  lemma {:induction false} LabelCountAdds(a: seq<string>, b: seq<string>)
    ensures LabelCount(a + b) == LabelCount(a) + LabelCount(b)
    decreases |a|
  {
    hide IsLabel;
    if a == [] {
      assert a + b == b;
    } else {
      assert (a + b)[0] == a[0] && (a + b)[1..] == a[1..] + b;
      LabelCountAdds(a[1..], b);
    }
  }

  lemma {:induction false} LabelCountZero(lines: seq<string>)
    ensures LabelCount(lines) == 0 <==> forall i | 0 <= i < |lines| :: !IsLabel(lines[i])
    decreases |lines|
  {
    hide IsLabel;
    if lines != [] {
      LabelCountZero(lines[1..]);
      assert forall i | 0 < i < |lines| :: lines[i] == lines[1..][i - 1];
      assert lines == [lines[0]] + lines[1..];
    }
  }

  /** A block without chunks is a block without label lines. */
  lemma NoChunksNoLabels(block: string)
    ensures ChunksOf(Lines(block), None, []) == []
            <==> forall i | 0 <= i < |Lines(block)| :: !IsLabel(Lines(block)[i])
  {
    hide Lines, IsLabel, ChunksOf;
    ChunkCount(Lines(block), None, []);
    LabelCountZero(Lines(block));
  }

  // ---------------------------------------------------------------- exactly when chunks are read back

  function ContentLabels(cs: seq<Chunk>): nat {
    if cs == [] then 0 else LabelCount(Lines(cs[0].content)) + ContentLabels(cs[1..])
  }

  lemma {:induction false} BlockLabels(cs: seq<Chunk>)
    requires forall i | 0 <= i < |cs| :: TitledChunk(cs[i])
    ensures LabelCount(Lines(Join(FullChunks(cs), "\n\n"))) == |cs| + ContentLabels(cs)
    decreases |cs|
  {
    hide Lines, IsLabel, Join, LineEnd, NewlinesOnly, OneLine, LabelCount;
    if cs == [] {
      NoLines();
    } else {
      var c := cs[0];
      var rest := Join(FullChunks(cs[1..]), "\n\n");
      ChunkLines(c, rest);
      BlockLabels(cs[1..]);
      LabelCountAdds([c.title], Lines(c.content));
      OneLabel(c.title);
      if |cs| == 1 {
        JoinOne(FullChunk(c), "\n\n");
        assert FullChunks(cs) == [FullChunk(c)];
        assert cs[1..] == [];
      } else {
        JoinCons(FullChunk(c), FullChunks(cs[1..]), "\n\n");
        LabelCountAdds([c.title] + Lines(c.content), [""]);
        LabelCountAdds([c.title] + Lines(c.content) + [""], Lines(rest));
        OneLabel("");
        BlankIsNoLabel();
      }
    }
  }

  lemma NoLines()
    ensures LabelCount(Lines(Join([], "\n\n"))) == 0
  {
  }

  lemma OneLabel(line: string)
    ensures LabelCount([line]) == if IsLabel(line) then 1 else 0
  {
  }

  lemma {:induction false} NoContentLabels(cs: seq<Chunk>)
    ensures ContentLabels(cs) == 0 <==> forall i | 0 <= i < |cs| :: LabelFree(cs[i].content)
    decreases |cs|
  {
    hide Lines, IsLabel, LabelCount;
    if cs != [] {
      NoContentLabels(cs[1..]);
      LabelCountZero(Lines(cs[0].content));
      assert LabelFree(cs[0].content) <==> LabelCount(Lines(cs[0].content)) == 0;
      hide LabelFree;
      assert forall i | 0 < i < |cs| :: cs[i] == cs[1..][i - 1];
      assert cs == [cs[0]] + cs[1..];
    }
  }

  /** Printed chunks are read back exactly when no line of a content has the shape of a label. */
  lemma ChunksExact(cs: seq<Chunk>)
    requires forall i | 0 <= i < |cs| :: TitledChunk(cs[i])
    ensures ChunksOf(Lines(Join(FullChunks(cs), "\n\n")), None, []) == cs
            <==> forall i | 0 <= i < |cs| :: LabelFree(cs[i].content)
  {
    hide Lines, IsLabel, Join, ChunksOf, LabelCount;
    NoContentLabels(cs);
    if ContentLabels(cs) == 0 {
      ChunksRoundTrip(cs);
    } else {
      BlockLabels(cs);
      ChunkCount(Lines(Join(FullChunks(cs), "\n\n")), None, []);
    }
  }

  /** A trimmed block fits its limit, except by one exactly where it overshoots. */
  lemma TrimBlockLength(block: string, limit: int)
    ensures |TrimBlock(block, limit)| <= Max(0, limit) + 1
    ensures |TrimBlock(block, limit)| > Max(0, limit) <==> BlockOvershoots(block, limit)
  {
    hide Lines, Strip, Join, ChunksOf, Truncate, Retain;
    var stripped := Strip(block);
    StripTwice(block);
    if 0 < limit < |stripped| {
      RetainFits(ChunksOf(Lines(stripped), None, []), limit, 0, 0);
      RetainNothing(ChunksOf(Lines(stripped), None, []), limit);
      TruncateLength(stripped, limit);
    }
  }
}
