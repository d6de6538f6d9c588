/** Printing the document prompt, reading it back, and trimming it to a total budget. */
module BuiltPrompt {
  import opened Common
  import opened Text
  import opened DocumentPrompt
  import opened DocumentBudget

  const NO_REQUEST := "Пользователь не уточнил задачу"

  // ---------------------------------------------------------------- printing

  function Digits(n: nat): (s: string)
    ensures s != [] && forall i | 0 <= i < |s| :: '0' <= s[i] <= '9'
  {
    var last := ['0' + (n % 10) as char];
    if n < 10 then last else Digits(n / 10) + last
  }

  function Title(index: nat, name: string): string {
    LABEL_START + Digits(index) + ": " + name + "]"
  }

  /** The labelled chunks of budgeted documents, numbered from `index`. */
  function Printed(docs: seq<Document>, index: nat): seq<Chunk> {
    if docs == [] then []
    else
      var content := Strip(docs[0].content);
      (if content == "" then [] else [Chunk(Title(index, docs[0].name), content)]) + Printed(docs[1..], index + 1)
  }

  function RequestText(message: string): string {
    if Strip(message) != "" then Strip(message) else NO_REQUEST
  }

  function Block(chunks: seq<Chunk>): string { Join(FullChunks(chunks), "\n\n") }

  function Prefix(head: string): string { head + DOCUMENTS_SECTION_HEADER + "\n\n" }

  function Suffix(message: string): string {
    SECTION_DIVIDER + USER_REQUEST_SECTION_HEADER + ("\n\n" + RequestText(message))
  }

  /** The prompt, or nothing when no document has text. `head` is the fixed instruction text. */
  function Build(head: string, message: string, docs: seq<Document>): Option<string> {
    var chunks := Printed(Budget(docs, MAX_DOCUMENT_CHARS), 1);
    if chunks == [] then None
    else Some(Strip("\n" + (Prefix(head) + Block(chunks) + Suffix(message)) + "\n"))
  }

  /** `_build_document_prompt`. */
  method BuildDocumentPrompt(head: string, message: string, docs: seq<Document>) returns (prompt: Option<string>)
    ensures prompt == Build(head, message, docs)
  {
    hide Strip, Budget, Title, Join, Printed, Prefix, Suffix;
    var budgeted := ApplyDocumentBudget(docs);
    PrintedNext(budgeted, 1);
    var texts: seq<string> := [];
    ghost var chunks: seq<Chunk> := [];
    for i := 0 to |budgeted|
      invariant texts == FullChunks(chunks)
      invariant Printed(budgeted, 1) == chunks + Printed(budgeted[i..], i + 1)
    {
      assert budgeted[i..][1..] == budgeted[i + 1..];
      PrintedNext(budgeted[i..], i + 1);
      var content := Strip(budgeted[i].content);
      if content == "" {
        continue;
      }
      ghost var c := Chunk(Title(i + 1, budgeted[i].name), content);
      FullChunksAppend(chunks, c);
      texts := texts + [Title(i + 1, budgeted[i].name) + "\n" + content];
      chunks := chunks + [c];
    }
    PrintedNext(budgeted[|budgeted|..], |budgeted| + 1);
    assert Printed(budgeted, 1) == chunks;
    if texts == [] {
      return None;
    }
    var block := Join(texts, "\n\n");
    prompt := Some(Strip("\n" + (Prefix(head) + block + Suffix(message)) + "\n"));
  }

  lemma PrintedNext(docs: seq<Document>, index: nat)
    ensures docs == [] ==> Printed(docs, index) == []
    ensures docs != [] ==>
              var content := Strip(docs[0].content);
              Printed(docs, index)
              == (if content == "" then [] else [Chunk(Title(index, docs[0].name), content)])
                 + Printed(docs[1..], index + 1)
  {
    hide Strip, Title;
  }

  lemma {:induction false} FullChunksAppend(cs: seq<Chunk>, c: Chunk)
    ensures FullChunks(cs + [c]) == FullChunks(cs) + [FullChunk(c)]
  {
    if cs == [] {
      assert cs + [c] == [c] && [c][1..] == [];
    } else {
      assert (cs + [c])[1..] == cs[1..] + [c];
      FullChunksAppend(cs[1..], c);
    }
  }

  /** The inline path budgets the documents before building, the parser path does not: the prompts are the same. */
  lemma PathsAgree(head: string, message: string, docs: seq<Document>)
    ensures Build(head, message, Budget(docs, MAX_DOCUMENT_CHARS)) == Build(head, message, docs)
  {
    BudgetTwice(docs, MAX_DOCUMENT_CHARS);
  }

  /** Every budgeted document is printed, with its number and its text. */
  lemma {:induction false} PrintedAll(docs: seq<Document>, index: nat)
    requires forall i | 0 <= i < |docs| :: docs[i].content != "" && Trim(docs[i].content)
    ensures |Printed(docs, index)| == |docs|
    ensures forall i | 0 <= i < |docs| ::
              Printed(docs, index)[i] == Chunk(Title(index + i, docs[i].name), docs[i].content)
    decreases |docs|
  {
    hide Strip, Title;
    if docs != [] {
      StripFacts(docs[0].content);
      PrintedAll(docs[1..], index + 1);
    }
  }

  lemma {:induction false} BudgetedTrim(docs: seq<Document>, left: int)
    ensures forall i | 0 <= i < |Budget(docs, left)| ::
              Budget(docs, left)[i].content != "" && Trim(Budget(docs, left)[i].content)
    decreases |docs|
  {
    hide Strip, CleanName, FitContent, Trim;
    if docs != [] {
      var content := Strip(docs[0].content);
      if content == "" {
        BudgetedTrim(docs[1..], left);
      } else {
        StripFacts(docs[0].content);
        FitTwice(content, left);
        StripFacts(FitContent(content, left));
        BudgetedTrim(docs[1..], Spend(content, left));
      }
    }
  }

  /** Building fails exactly when no document has any text. */
  lemma BuildFails(head: string, message: string, docs: seq<Document>)
    ensures Build(head, message, docs).None? <==> NonEmpty(docs) == []
  {
    hide Strip, Budget, NonEmpty, Join, Title;
    BudgetedTrim(docs, MAX_DOCUMENT_CHARS);
    PrintedAll(Budget(docs, MAX_DOCUMENT_CHARS), 1);
    BudgetKeeps(docs, MAX_DOCUMENT_CHARS);
  }

  // ---------------------------------------------------------------- where a header can occur

  ghost predicate Free(s: string, p: string) { forall i: nat :: !OccursAt(s, p, i) }

  predicate Header(p: string) { p != [] && p[0] == '#' && forall i | 0 <= i < |p| :: p[i] != '\n' && p[i] != ']' }

  /** Inside a slice the occurrences are those of the whole. */
  lemma SliceOccurs(s: string, lo: nat, hi: nat, p: string, i: nat)
    requires lo <= i && i + |p| <= hi <= |s|
    ensures OccursAt(s, p, i) == OccursAt(s[lo..hi], p, i - lo)
  {
    var here, there := s[i..i + |p|], s[lo..hi][i - lo..i - lo + |p|];
    assert forall k | 0 <= k < |p| :: here[k] == there[k];
    assert here == there;
  }

  lemma Mismatch(s: string, p: string, i: nat, k: nat)
    requires k < |p| && i + k < |s| && s[i + k] != p[k]
    ensures !OccursAt(s, p, i)
  {
    assert i + |p| <= |s| ==> s[i..i + |p|][k] == s[i + k];
  }

  /** A pattern without line breaks does not run over the end of a line. */
  lemma FreeLine(a: string, b: string, p: string)
    requires p != [] && '\n' !in p && Free(a, p) && Free(b, p)
    ensures Free(a + "\n" + b, p)
  {
    hide OccursAt;
    var s := a + "\n" + b;
    assert s[0..|a|] == a && s[|a| + 1..|s|] == b;
    forall i: nat
      ensures !OccursAt(s, p, i)
    {
      if i + |p| <= |a| {
        SliceOccurs(s, 0, |a|, p, i);
      } else if i <= |a| {
        Mismatch(s, p, i, |a| - i);
      } else if i + |p| <= |s| {
        SliceOccurs(s, |a| + 1, |s|, p, i);
      } else {
        TooLong(s, p, i);
      }
    }
  }

  lemma TooLong(s: string, p: string, i: nat)
    requires i + |p| > |s|
    ensures !OccursAt(s, p, i)
  {
  }

  /** After text that ends a line, a header is found where it starts. */
  lemma FindHeader(a: string, p: string, b: string)
    requires Header(p) && Free(a, p) && a != [] && a[|a| - 1] == '\n'
    ensures Find(a + p + b, p) == Some(|a|)
  {
    var s := a + p + b;
    assert s[|a|..|a| + |p|] == p && s[..|a|] == a;
    forall k: nat | k < |a|
      ensures !OccursAt(s, p, k)
    {
      hide OccursAt;
      if k + |p| <= |a| {
        SliceOccurs(s, 0, |a|, p, k);
      } else {
        Mismatch(s, p, k, |a| - 1 - k);
      }
    }
    FindFromIs(s, p, 0, |a|);
  }

  lemma NoHashFree(s: string, p: string)
    requires Header(p) && '#' !in s
    ensures Free(s, p)
  {
    forall i: nat
      ensures !OccursAt(s, p, i)
    {
      if i < |s| {
        Mismatch(s, p, i, 0);
      }
    }
  }

  lemma TitleStart(index: nat)
    ensures '#' !in LABEL_START + Digits(index) + ": " && OneLine(LABEL_START + Digits(index) + ": ")
  {
    assert OneLine(LABEL_START) && '#' !in LABEL_START;
    assert OneLine(": ") && '#' !in ": ";
  }

  /** A title has a header only where its name has. */
  lemma TitleFree(index: nat, name: string, p: string)
    requires Header(p) && Free(name, p)
    ensures Free(Title(index, name), p)
  {
    hide Digits;
    var start := LABEL_START + Digits(index) + ": ";
    TitleStart(index);
    var s := Title(index, name);
    assert s == start + name + "]" && s[|start|..|s| - 1] == name;
    forall i: nat
      ensures !OccursAt(s, p, i)
    {
      hide OccursAt;
      if i < |start| {
        assert start[i] in start;
        Mismatch(s, p, i, 0);
      } else if i + |p| < |s| {
        SliceOccurs(s, |start|, |s| - 1, p, i);
      } else if i + |p| == |s| {
        Mismatch(s, p, i, |p| - 1);
      } else {
        TooLong(s, p, i);
      }
    }
  }

  lemma FreeBlank(p: string)
    requires Header(p)
    ensures Free("", p) && Free("---", p)
  {
    NoHashFree("", p);
    NoHashFree("---", p);
  }

  lemma FreeChunk(c: Chunk, p: string)
    requires Header(p) && Free(c.title, p) && Free(c.content, p)
    ensures Free(FullChunk(c), p)
  {
    FreeLine(c.title, c.content, p);
  }

  lemma FreeGap(a: string, b: string, p: string)
    requires Header(p) && Free(a, p) && Free(b, p)
    ensures Free(a + "\n\n" + b, p)
  {
    FreeBlank(p);
    FreeLine("", b, p);
    FreeLine(a, "" + "\n" + b, p);
    assert a + "\n" + ("" + "\n" + b) == a + "\n\n" + b;
  }

  lemma {:induction false} FreeBlock(cs: seq<Chunk>, p: string)
    requires Header(p) && forall i | 0 <= i < |cs| :: Free(cs[i].title, p) && Free(cs[i].content, p)
    ensures Free(Block(cs), p)
    decreases |cs|
  {
    hide Free, FullChunk;
    if cs == [] {
      FreeBlank(p);
    } else {
      FreeChunk(cs[0], p);
      FreeBlock(cs[1..], p);
      if |cs| == 1 {
        assert FullChunks(cs) == [FullChunk(cs[0])];
      } else {
        FreeGap(FullChunk(cs[0]), Block(cs[1..]), p);
        JoinCons(FullChunk(cs[0]), FullChunks(cs[1..]), "\n\n");
      }
    }
  }

  // ---------------------------------------------------------------- reading back

  /** The instruction text: starts with a word, ends a line, and does not itself hold the documents header. */
  ghost predicate Instructions(head: string) {
    head != "" && !IsSpace(head[0]) && head[|head| - 1] == '\n' && Free(head, DOCUMENTS_SECTION_HEADER)
  }

  /** A budgeted document with one-line name and newline-separated text, both without the request header. */
  ghost predicate Plain(d: Document) {
    && OneLine(d.name) && Free(d.name, USER_REQUEST_SECTION_HEADER)
    && NewlinesOnly(d.content) && Free(d.content, USER_REQUEST_SECTION_HEADER)
  }

  /** One that can be read back: no line of its text has the shape of a label. */
  ghost predicate Readable(d: Document) { Plain(d) && LabelFree(d.content) }

  lemma TitleIsLabel(index: nat, name: string)
    requires OneLine(name)
    ensures OneLine(Title(index, name)) && Trim(Title(index, name)) && IsLabel(Title(index, name))
  {
    hide Digits, Strip;
    TitleStart(index);
    var t := Title(index, name);
    assert t == LABEL_START + (Digits(index) + ": " + name + "]");
    assert t[0] == '[' && t[|t| - 1] == ']';
    StripFacts(t);
  }

  lemma PrintedIsTitled(index: nat, d: Document)
    requires Plain(d) && d.content != "" && Trim(d.content)
    ensures TitledChunk(Chunk(Title(index, d.name), d.content))
    ensures Free(Title(index, d.name), USER_REQUEST_SECTION_HEADER)
  {
    hide Lines, IsLabel, Title, Free, LineEnd;
    TitleIsLabel(index, d.name);
    HeadersAreHeaders();
    TitleFree(index, d.name, USER_REQUEST_SECTION_HEADER);
  }

  lemma HeadersAreHeaders()
    ensures Header(USER_REQUEST_SECTION_HEADER) && Header(DOCUMENTS_SECTION_HEADER)
  {
  }

  lemma {:induction false} BlockTrim(cs: seq<Chunk>)
    requires cs != [] && forall i | 0 <= i < |cs| :: TitledChunk(cs[i])
    ensures Block(cs) != "" && Trim(Block(cs))
    decreases |cs|
  {
    hide Lines, IsLabel, NewlinesOnly, OneLine, IsSpace;
    var c := cs[0];
    assert FullChunk(c) == c.title + "\n" + c.content;
    BlankIsNoLabel();
    assert c.title != "";
    if |cs| == 1 {
      assert FullChunks(cs) == [FullChunk(c)];
    } else {
      BlockTrim(cs[1..]);
      JoinCons(FullChunk(c), FullChunks(cs[1..]), "\n\n");
    }
  }

  /** What the three parts of a built prompt are. */
  lemma ParseParts(head: string, block: string, message: string)
    requires Instructions(head) && Trim(block) && Free(block, USER_REQUEST_SECTION_HEADER)
    ensures ParseSections(Prefix(head) + block + Suffix(message))
            == Some(Sections(Prefix(head), block, Suffix(message)))
  {
    hide Strip, IsSpace, Find, RFind, RequestText, Free, OccursAt, Header;
    HeadersAreHeaders();
    var request := "\n\n" + RequestText(message);
    var section := "\n\n" + block + SECTION_DIVIDER;
    var rest := section + USER_REQUEST_SECTION_HEADER + request;
    Pieces(head, block, message);
    FindHeader(head, DOCUMENTS_SECTION_HEADER, rest);
    SectionFree(block);
    FindHeader(section, USER_REQUEST_SECTION_HEADER, request);
    RFindAtEnd("\n\n" + block, SECTION_DIVIDER);
    StripLeading(block);
  }

  /** Where the pieces of a prompt lie. */
  lemma Pieces(head: string, block: string, message: string)
    ensures var request := "\n\n" + RequestText(message);
            var section := "\n\n" + block + SECTION_DIVIDER;
            var rest := section + USER_REQUEST_SECTION_HEADER + request;
            var s := Prefix(head) + block + Suffix(message);
            && s == head + DOCUMENTS_SECTION_HEADER + rest
            && s[|head| + |DOCUMENTS_SECTION_HEADER|..] == rest && s[..|head|] == head
            && rest[..|section|] == section && rest[|section| + |USER_REQUEST_SECTION_HEADER|..] == request
            && section[..|"\n\n" + block|] == "\n\n" + block
            && section[|section| - 1] == '\n'
  {
    hide RequestText;
  }

  lemma SectionFree(block: string)
    requires Free(block, USER_REQUEST_SECTION_HEADER)
    ensures Free("\n\n" + block + SECTION_DIVIDER, USER_REQUEST_SECTION_HEADER)
  {
    hide Free;
    HeadersAreHeaders();
    var p := USER_REQUEST_SECTION_HEADER;
    FreeBlank(p);
    FreeGap("---", "", p);
    FreeGap(block, "---" + "\n\n" + "", p);
    FreeGap("", block + "\n\n" + ("---" + "\n\n" + ""), p);
    assert "" + "\n\n" + (block + "\n\n" + ("---" + "\n\n" + "")) == "\n\n" + block + SECTION_DIVIDER;
  }

  lemma StripLeading(block: string)
    requires Trim(block)
    ensures Strip("\n\n" + block) == block
  {
    assert ("\n\n" + block)[1..] == "\n" + block && ("\n" + block)[1..] == block;
    assert LStrip("\n\n" + block) == LStrip(block);
    StripFacts(block);
  }

  lemma StripFrame(s: string)
    requires s != "" && Trim(s)
    ensures Strip("\n" + s + "\n") == s
  {
    assert ("\n" + s + "\n")[1..] == s + "\n";
    assert LStrip("\n" + s + "\n") == LStrip(s + "\n");
    StripNewline(s);
  }

  lemma RequestTrim(message: string)
    ensures RequestText(message) != "" && Trim(RequestText(message))
  {
    StripFacts(message);
    assert !IsSpace(NO_REQUEST[0]) && !IsSpace(NO_REQUEST[|NO_REQUEST| - 1]);
  }

  /** A prompt with these ends is trimmed. */
  lemma FramedTrim(head: string, middle: string, message: string)
    requires Instructions(head)
    ensures var s := Prefix(head) + middle + Suffix(message);
            s != "" && Trim(s)
  {
    hide RequestText, IsSpace;
    RequestTrim(message);
    var s := Prefix(head) + middle + Suffix(message);
    assert s[0] == head[0];
    assert s[|s| - 1] == RequestText(message)[|RequestText(message)| - 1];
  }

  /** The budgeted documents of a prompt. */
  function Kept(docs: seq<Document>): seq<Document> { Budget(docs, MAX_DOCUMENT_CHARS) }

  /**
    Reading a built prompt gives back the exact prefix, block and suffix, which put together are
    the prompt; and it gives back the labelled chunks that were printed exactly when no line of a
    budgeted content has the shape of a label.
  */
  lemma ParseExact(head: string, message: string, docs: seq<Document>)
    requires Instructions(head) && NonEmpty(docs) != []
    requires forall i | 0 <= i < |Kept(docs)| :: Plain(Kept(docs)[i])
    ensures var chunks := Printed(Kept(docs), 1);
            && Build(head, message, docs) == Some(Prefix(head) + Block(chunks) + Suffix(message))
            && ParseSections(Prefix(head) + Block(chunks) + Suffix(message))
               == Some(Sections(Prefix(head), Block(chunks), Suffix(message)))
            && Block(chunks) != "" && Trim(Block(chunks))
            && |chunks| == |Kept(docs)| && (forall i | 0 <= i < |chunks| :: TitledChunk(chunks[i]))
            && (forall i | 0 <= i < |chunks| :: chunks[i].content == Kept(docs)[i].content)
            && (ChunksOf(Lines(Block(chunks)), None, []) == chunks
                <==> forall i | 0 <= i < |Kept(docs)| :: LabelFree(Kept(docs)[i].content))
  {
    hide Budget, Strip, NonEmpty, Plain, TitledChunk, Instructions, Prefix, Suffix, Free, Title, Lines, ChunksOf,
         ParseSections, LabelFree, Trim;
    var out := Kept(docs);
    BuildFails(head, message, docs);
    BudgetedTrim(docs, MAX_DOCUMENT_CHARS);
    PrintedAll(out, 1);
    var chunks := Printed(out, 1);
    forall i | 0 <= i < |chunks|
      ensures TitledChunk(chunks[i])
      ensures Free(chunks[i].title, USER_REQUEST_SECTION_HEADER) && Free(chunks[i].content, USER_REQUEST_SECTION_HEADER)
    {
      PrintedIsTitled(1 + i, out[i]);
      PlainFree(out[i]);
    }
    HeadersAreHeaders();
    ChunksExact(chunks);
    assert (forall i | 0 <= i < |chunks| :: LabelFree(chunks[i].content))
      <==> (forall i | 0 <= i < |out| :: LabelFree(out[i].content));
    FreeBlock(chunks, USER_REQUEST_SECTION_HEADER);
    BlockTrim(chunks);
    ParseParts(head, Block(chunks), message);
    FramedTrim(head, Block(chunks), message);
    StripFrame(Prefix(head) + Block(chunks) + Suffix(message));
  }

  /** The number a string of digits stands for. */
  function Value(s: string): int
    requires forall i | 0 <= i < |s| :: '0' <= s[i] <= '9'
  {
    if s == [] then 0 else Value(s[..|s| - 1]) * 10 + (s[|s| - 1] as int - '0' as int)
  }

  lemma {:induction false} DigitsValue(n: nat)
    ensures Value(Digits(n)) == n && (n > 0 ==> Digits(n)[0] != '0')
  {
    var last := '0' + (n % 10) as char;
    if n < 10 {
      assert Digits(n)[..0] == [];
    } else {
      DigitsValue(n / 10);
      assert Digits(n)[..|Digits(n)| - 1] == Digits(n / 10) && Digits(n)[|Digits(n)| - 1] == last;
    }
  }

  lemma {:induction false} FullChunksAt(cs: seq<Chunk>, i: nat)
    requires i < |cs|
    ensures FullChunks(cs)[i] == FullChunk(cs[i])
  {
    hide FullChunk;
    if i > 0 {
      FullChunksAt(cs[1..], i - 1);
    }
  }

  /**
    The whole prompt, character by character: the instructions, the documents header, each budgeted
    document under its number and name, and after the divider the stripped request, or the text
    that stands for a missing one.
  */
  lemma BuiltText(head: string, message: string, docs: seq<Document>, texts: seq<string>)
    requires Instructions(head) && NonEmpty(docs) != [] && |texts| == |Kept(docs)|
    requires forall i | 0 <= i < |texts| ::
               texts[i] == "[Документ " + Digits(i + 1) + ": " + Kept(docs)[i].name + "]\n" + Kept(docs)[i].content
    ensures Build(head, message, docs)
            == Some(head + "# ДОКУМЕНТЫ\n\n" + Join(texts, "\n\n") + "\n\n---\n\n# ЗАПРОС ПОЛЬЗОВАТЕЛЯ\n\n"
                    + if Strip(message) != "" then Strip(message) else NO_REQUEST)
  {
    hide Budget, Strip, NonEmpty, Instructions, Join, Digits;
    var out := Kept(docs);
    BuildFails(head, message, docs);
    BudgetedTrim(docs, MAX_DOCUMENT_CHARS);
    PrintedAll(out, 1);
    var chunks := Printed(out, 1);
    forall i | 0 <= i < |texts|
      ensures texts[i] == FullChunks(chunks)[i]
    {
      FullChunksAt(chunks, i);
      TextIs(Digits(i + 1), out[i].name, out[i].content);
    }
    assert texts == FullChunks(chunks);
    FramedTrim(head, Block(chunks), message);
    StripFrame(Prefix(head) + Block(chunks) + Suffix(message));
    PromptIs(head, Block(chunks), message);
  }

  lemma TextIs(digits: string, name: string, content: string)
    ensures "[Документ " + digits + ": " + name + "]\n" + content
            == (LABEL_START + digits + ": " + name + "]") + "\n" + content
  {
  }

  lemma PromptIs(head: string, block: string, message: string)
    ensures Prefix(head) + block + Suffix(message)
            == head + "# ДОКУМЕНТЫ\n\n" + block + "\n\n---\n\n# ЗАПРОС ПОЛЬЗОВАТЕЛЯ\n\n"
               + if Strip(message) != "" then Strip(message) else NO_REQUEST
  {
    hide Strip;
  }

  lemma PlainFree(d: Document)
    requires Plain(d)
    ensures Free(d.content, USER_REQUEST_SECTION_HEADER)
  {
  }

  /** So readable documents come back whole. */
  lemma ParseBuilt(head: string, message: string, docs: seq<Document>)
    requires Instructions(head) && NonEmpty(docs) != []
    requires forall i | 0 <= i < |Kept(docs)| :: Readable(Kept(docs)[i])
    ensures var chunks := Printed(Kept(docs), 1);
            && Build(head, message, docs) == Some(Prefix(head) + Block(chunks) + Suffix(message))
            && ParseSections(Prefix(head) + Block(chunks) + Suffix(message))
               == Some(Sections(Prefix(head), Block(chunks), Suffix(message)))
            && ChunksOf(Lines(Block(chunks)), None, []) == chunks
            && (forall i | 0 <= i < |chunks| :: PrintedChunk(chunks[i]))
            && Block(chunks) != "" && Trim(Block(chunks))
  {
    hide Budget, Strip, NonEmpty, Plain, TitledChunk, Instructions, Prefix, Suffix, Lines, ChunksOf, ParseSections,
         LabelFree, Trim, Printed, Block, Build;
    assert forall i | 0 <= i < |Kept(docs)| :: Readable(Kept(docs)[i]);
    ParseExact(head, message, docs);
  }

  // ---------------------------------------------------------------- documents as extracted

  /** Extracted text whose budgeted form can be read back: neither the request header nor a label start occurs in it. */
  ghost predicate Clean(d: Document) {
    && OneLine(CleanName(d.name)) && Free(CleanName(d.name), USER_REQUEST_SECTION_HEADER)
    && CleanText(d.content)
  }

  ghost predicate CleanText(s: string) {
    NewlinesOnly(s) && Free(s, USER_REQUEST_SECTION_HEADER) && Free(s, LABEL_START)
  }

  lemma FreeSlice(s: string, p: string, lo: nat, hi: nat)
    requires lo <= hi <= |s| && Free(s, p)
    ensures Free(s[lo..hi], p)
  {
    hide OccursAt;
    forall i: nat
      ensures !OccursAt(s[lo..hi], p, i)
    {
      if i + |p| <= hi - lo {
        SliceOccurs(s, lo, hi, p, lo + i);
      } else {
        TooLong(s[lo..hi], p, i);
      }
    }
  }

  lemma CleanSlice(s: string, lo: nat, hi: nat)
    requires lo <= hi <= |s| && CleanText(s)
    ensures CleanText(s[lo..hi])
  {
    hide Free, LineEnd;
    FreeSlice(s, USER_REQUEST_SECTION_HEADER, lo, hi);
    FreeSlice(s, LABEL_START, lo, hi);
  }

  lemma StripIsSlice(s: string) returns (lo: nat, hi: nat)
    ensures lo <= hi <= |s| && Strip(s) == s[lo..hi]
  {
    LStripFacts(s);
    RStripFacts(LStrip(s));
    lo := |s| - |LStrip(s)|;
    hi := lo + |Strip(s)|;
  }

  lemma {:induction false} FreeLines(s: string, p: string, k: nat)
    requires Free(s, p) && k < |Lines(s)|
    ensures Free(Lines(s)[k], p)
    decreases |s|
  {
    hide LineEnd, FirstLine, Free;
    var n := FirstLine(s);
    if n < |s| {
      var next := n + if n + 1 < |s| && s[n] == '\r' && s[n + 1] == '\n' then 2 else 1;
      FreeSlice(s, p, 0, n);
      FreeSlice(s, p, next, |s|);
      assert s[..n] == s[0..n] && s[next..] == s[next..|s|];
      if k > 0 {
        FreeLines(s[next..], p, k - 1);
      }
    }
  }

  lemma CleanLines(s: string, k: nat)
    requires CleanText(s) && k < |Lines(s)|
    ensures !IsLabel(Lines(s)[k])
  {
    hide Strip, Lines, OccursAt;
    var line := Lines(s)[k];
    FreeLines(s, LABEL_START, k);
    var l, h := StripIsSlice(line);
    FreeSlice(line, LABEL_START, l, h);
    StartOccurs(Strip(line), LABEL_START);
  }

  lemma StartOccurs(s: string, p: string)
    ensures p <= s ==> OccursAt(s, p, 0)
  {
  }

  lemma MarkerClean()
    ensures CleanText(DOCUMENT_TRUNCATION_MARKER)
  {
    var m := DOCUMENT_TRUNCATION_MARKER;
    HeadersAreHeaders();
    NoHashFree(m, USER_REQUEST_SECTION_HEADER);
    forall i: nat
      ensures !OccursAt(m, LABEL_START, i)
    {
      if i + 1 < |m| {
        assert m[i + 1] != LABEL_START[1];
        Mismatch(m, LABEL_START, i, 1);
      }
    }
  }

  lemma FitClean(content: string, left: int)
    requires CleanText(content)
    ensures CleanText(FitContent(content, left))
  {
    hide Free, Trim, RStrip;
    MarkerClean();
    if left > 0 && |content| > left {
      var cut := content[..Min(|content|, Max(0, left - |DOCUMENT_TRUNCATION_MARKER| - 1))];
      RStripFacts(cut);
      assert RStrip(cut) == content[0..|RStrip(cut)|];
      CleanSlice(content, 0, |RStrip(cut)|);
      HeadersAreHeaders();
      FreeLine(RStrip(cut), DOCUMENT_TRUNCATION_MARKER, USER_REQUEST_SECTION_HEADER);
      FreeLine(RStrip(cut), DOCUMENT_TRUNCATION_MARKER, LABEL_START);
      assert RStrip(cut) + "\n" + DOCUMENT_TRUNCATION_MARKER == RStrip(cut) + ("\n" + DOCUMENT_TRUNCATION_MARKER);
    }
  }

  /** Cutting to the budget keeps clean documents readable. */
  lemma {:induction false} BudgetReadable(docs: seq<Document>, left: int)
    requires forall i | 0 <= i < |docs| :: Clean(docs[i])
    ensures forall i | 0 <= i < |Budget(docs, left)| :: Readable(Budget(docs, left)[i])
    decreases |docs|
  {
    hide Strip, CleanName, FitContent, Readable, CleanText;
    if docs != [] {
      var content := Strip(docs[0].content);
      if content == "" {
        BudgetReadable(docs[1..], left);
      } else {
        var lo, hi := StripIsSlice(docs[0].content);
        assert Clean(docs[0]);
        CleanSlice(docs[0].content, lo, hi);
        FitClean(content, left);
        CleanIsReadable(Document(CleanName(docs[0].name), FitContent(content, left)));
        BudgetReadable(docs[1..], Spend(content, left));
      }
    }
  }

  lemma CleanIsReadable(d: Document)
    requires OneLine(d.name) && Free(d.name, USER_REQUEST_SECTION_HEADER) && CleanText(d.content)
    ensures Readable(d)
  {
    hide Lines, IsLabel, OneLine, Free;
    forall i | 0 <= i < |Lines(d.content)|
      ensures !IsLabel(Lines(d.content)[i])
    {
      CleanLines(d.content, i);
    }
  }

  // ---------------------------------------------------------------- a cut that makes a label

  function Repeat(c: char, n: nat): string { seq(n, _ => c) }

  const LABEL_LIKE := "[Документ 1]"

  /** A long document whose second line starts like a label and goes on; the cut falls right after the bracket. */
  function CutDocument(): Document {
    Document("a", Repeat('x', 11966) + "\n" + (LABEL_LIKE + Repeat('x', 100)))
  }

  function CutContent(): string {
    Repeat('x', 11966) + "\n" + (LABEL_LIKE + "\n" + DOCUMENT_TRUNCATION_MARKER)
  }

  lemma LabelLikeFacts()
    ensures |LABEL_LIKE| == 12 && OneLine(LABEL_LIKE) && '#' !in LABEL_LIKE && IsLabel(LABEL_LIKE)
    ensures LABEL_LIKE[0] == '[' && LABEL_LIKE[11] == ']'
  {
    StripFacts(LABEL_LIKE);
  }

  lemma RepeatFacts(n: nat)
    ensures |Repeat('x', n)| == n && OneLine(Repeat('x', n)) && '#' !in Repeat('x', n)
    ensures Trim(Repeat('x', n)) && (n > 0 ==> !IsLabel(Repeat('x', n)))
  {
    StripFacts(Repeat('x', n));
    assert LABEL_START[0] == '[';
  }

  /** The extracted text has no label-shaped line. */
  lemma CutDocumentPlain()
    ensures LabelFree(Strip(CutDocument().content)) && Strip(CutDocument().content) == CutDocument().content
    ensures |CutDocument().content| == 12079
  {
    hide Repeat, Strip, Lines, LineEnd, IsSpace;
    var a, b := Repeat('x', 11966), LABEL_LIKE + Repeat('x', 100);
    LabelLikeFacts();
    RepeatFacts(11966);
    RepeatFacts(100);
    LinesCons(a, b);
    LinesOne(b);
    assert b[|b| - 1] == Repeat('x', 100)[99];
    assert !IsSpace(Repeat('x', 100)[99]) && Repeat('x', 100)[99] != ']' by { XIsPlain(100, 99); }
    assert !IsSpace(a[0]) by { XIsPlain(11966, 0); }
    StripFacts(b);
    StripFacts(a + "\n" + b);
    assert Lines(a + "\n" + b) == [a, b];
  }

  lemma XIsPlain(n: nat, i: nat)
    requires i < n
    ensures Repeat('x', n)[i] == 'x' && !IsSpace('x')
  {
  }

  lemma CutIs()
    ensures FitContent(CutDocument().content, MAX_DOCUMENT_CHARS) == CutContent()
  {
    hide Repeat;
    LabelLikeFacts();
    RepeatFacts(11966);
    RepeatFacts(100);
    var content := CutDocument().content;
    var kept := Repeat('x', 11966) + "\n" + LABEL_LIKE;
    assert |DOCUMENT_TRUNCATION_MARKER| == 20;
    assert content[..11979] == kept;
    assert kept[|kept| - 1] == ']';
    assert RStrip(kept) == kept;
    assert kept + ("\n" + DOCUMENT_TRUNCATION_MARKER) == CutContent();
  }

  lemma CutContentFacts()
    ensures Plain(Document("a", CutContent())) && !LabelFree(CutContent())
  {
    hide Repeat, Free, Lines, IsLabel, OneLine, NewlinesOnly;
    var a := Repeat('x', 11966);
    LabelLikeFacts();
    RepeatFacts(11966);
    LinesCons(a, LABEL_LIKE + "\n" + DOCUMENT_TRUNCATION_MARKER);
    LinesCons(LABEL_LIKE, DOCUMENT_TRUNCATION_MARKER);
    assert Lines(CutContent())[1] == LABEL_LIKE;
    CutContentPlain();
  }

  lemma MarkerPlain()
    ensures '#' !in DOCUMENT_TRUNCATION_MARKER && NewlinesOnly(DOCUMENT_TRUNCATION_MARKER) && OneLine("a")
              && '#' !in "a"
  {
  }

  lemma NoHashLine(a: string, b: string)
    requires '#' !in a && '#' !in b
    ensures '#' !in a + "\n" + b
  {
  }

  lemma CutContentPlain()
    ensures Plain(Document("a", CutContent()))
  {
    hide Repeat, Free, OneLine, NewlinesOnly;
    var a := Repeat('x', 11966);
    LabelLikeFacts();
    RepeatFacts(11966);
    MarkerPlain();
    HeadersAreHeaders();
    NoHashFree("a", USER_REQUEST_SECTION_HEADER);
    NoHashLine(LABEL_LIKE, DOCUMENT_TRUNCATION_MARKER);
    NoHashLine(a, LABEL_LIKE + "\n" + DOCUMENT_TRUNCATION_MARKER);
    NoHashFree(CutContent(), USER_REQUEST_SECTION_HEADER);
    LinesNewlines(LABEL_LIKE, DOCUMENT_TRUNCATION_MARKER);
    LinesNewlines(a, LABEL_LIKE + "\n" + DOCUMENT_TRUNCATION_MARKER);
  }

  lemma LinesNewlines(a: string, b: string)
    requires OneLine(a)
    ensures NewlinesOnly(b) ==> NewlinesOnly(a + "\n" + b)
  {
    hide LineEnd;
  }

  /**
    A document without a label-shaped line whose prompt is not read back: the budget cuts its
    second line to one.
  */
  lemma CutMakesLabel(head: string, message: string)
    requires Instructions(head)
    ensures LabelFree(Strip(CutDocument().content))
    ensures var chunks := Printed(Kept([CutDocument()]), 1);
            && Build(head, message, [CutDocument()]) == Some(Prefix(head) + Block(chunks) + Suffix(message))
            && ChunksOf(Lines(Block(chunks)), None, []) != chunks
  {
    hide CutDocument, CutContent, FitContent, Strip, LabelFree, Plain, Instructions, Lines, ChunksOf, ParseSections,
         Printed, Block, Build, Prefix, Suffix;
    CutDocumentPlain();
    CutIs();
    CutContentFacts();
    CutKept();
    ParseExact(head, message, [CutDocument()]);
    assert Kept([CutDocument()])[0].content == CutContent();
  }

  lemma CutKept()
    ensures Kept([CutDocument()]) == [Document("a", CutContent())] && NonEmpty([CutDocument()]) != []
  {
    hide Strip, FitContent, CutContent;
    var docs := [CutDocument()];
    CutDocumentPlain();
    CutIs();
    StripFacts("a");
    assert docs[1..] == [];
    assert CutDocument().name == "a";
    hide CutDocument;
    assert Budget(docs[1..], Spend(CutDocument().content, MAX_DOCUMENT_CHARS)) == [];
  }
}
