/** Budgeting extracted documents and printing the document prompt. */
module DocumentBudget {
  import opened Common
  import opened Text
  import opened DocumentPrompt

  const MAX_DOCUMENT_CHARS := 12000

  datatype Document = Document(name: string, content: string)

  function CleanName(name: string): string {
    if Strip(name) != "" then Strip(name) else "document"
  }

  /** The content that is kept when `left` characters remain. */
  function FitContent(content: string, left: int): string {
    if left <= 0 then DOCUMENT_TRUNCATION_MARKER
    else if |content| > left then
      var snippet := RStrip(content[..Min(|content|, Max(0, left - |DOCUMENT_TRUNCATION_MARKER| - 1))]);
      if snippet != "" then snippet + ("\n" + DOCUMENT_TRUNCATION_MARKER) else DOCUMENT_TRUNCATION_MARKER
    else content
  }

  /** A document cut after the budget is spent does not count against it. */
  function Spend(content: string, left: int): int {
    if left <= 0 then left else left - |FitContent(content, left)|
  }

  function Budget(docs: seq<Document>, left: int): seq<Document> {
    if docs == [] then []
    else
      var content := Strip(docs[0].content);
      if content == "" then Budget(docs[1..], left)
      else [Document(CleanName(docs[0].name), FitContent(content, left))] + Budget(docs[1..], Spend(content, left))
  }

  /** `apply_document_budget`. */
  method ApplyDocumentBudget(docs: seq<Document>) returns (out: seq<Document>)
    ensures out == Budget(docs, MAX_DOCUMENT_CHARS)
  {
    hide Strip, CleanName, FitContent, Budget;
    out := [];
    var consumed: int := 0;
    assert docs[0..] == docs;
    for i := 0 to |docs|
      invariant Budget(docs, MAX_DOCUMENT_CHARS) == out + Budget(docs[i..], MAX_DOCUMENT_CHARS - consumed)
    {
      BudgetStep(docs, i, MAX_DOCUMENT_CHARS - consumed);
      SpentKeepsMarker(Strip(docs[i].content), MAX_DOCUMENT_CHARS - consumed);
      var name := CleanName(docs[i].name);
      var content := Strip(docs[i].content);
      if content == "" {
        continue;
      }
      var left := MAX_DOCUMENT_CHARS - consumed;
      if left <= 0 {
        out := out + [Document(name, DOCUMENT_TRUNCATION_MARKER)];
        continue;
      }
      content := FitContent(content, left);
      consumed := consumed + |content|;
      out := out + [Document(name, content)];
    }
    BudgetNone(docs[|docs|..], MAX_DOCUMENT_CHARS - consumed);
  }

  lemma BudgetNone(docs: seq<Document>, left: int)
    requires docs == []
    ensures Budget(docs, left) == []
  {
  }

  lemma BudgetStep(docs: seq<Document>, i: nat, left: int)
    requires i < |docs|
    ensures var content := Strip(docs[i].content);
            Budget(docs[i..], left)
            == if content == "" then Budget(docs[i + 1..], left)
               else [Document(CleanName(docs[i].name), FitContent(content, left))]
                    + Budget(docs[i + 1..], Spend(content, left))
  {
    hide Strip, CleanName, FitContent, Spend;
    assert docs[i..][1..] == docs[i + 1..];
  }

  // ---------------------------------------------------------------- idempotence

  /** A kept content is trimmed, not empty, and is kept again at the same point of the budget. */
  lemma FitTwice(content: string, left: int)
    requires content != "" && Trim(content)
    ensures var fit := FitContent(content, left);
            fit != "" && Strip(fit) == fit && FitContent(fit, left) == fit && |fit| <= Max(left, 20)
  {
    var fit := FitContent(content, left);
    assert |DOCUMENT_TRUNCATION_MARKER| == 20;
    if left > 0 && |content| > left {
      RStripFacts(content[..Min(|content|, Max(0, left - 21))]);
    }
    assert Trim(fit);
    StripFacts(fit);
  }

  lemma CleanNameTwice(name: string)
    ensures CleanName(CleanName(name)) == CleanName(name) && CleanName(name) != ""
  {
    StripTwice(name);
    StripFacts("document");
  }

  /** Budgeting twice is budgeting once, from any point of the budget. */
  lemma {:induction false} BudgetTwice(docs: seq<Document>, left: int)
    ensures Budget(Budget(docs, left), left) == Budget(docs, left)
    decreases |docs|
  {
    hide Strip, CleanName, FitContent;
    if docs != [] {
      var content := Strip(docs[0].content);
      if content == "" {
        BudgetTwice(docs[1..], left);
      } else {
        StripFacts(docs[0].content);
        FitTwice(content, left);
        CleanNameTwice(docs[0].name);
        var rest := Budget(docs[1..], Spend(content, left));
        BudgetTwice(docs[1..], Spend(content, left));
        var first := Document(CleanName(docs[0].name), FitContent(content, left));
        assert ([first] + rest)[0] == first && ([first] + rest)[1..] == rest;
      }
    }
  }

  // ---------------------------------------------------------------- what survives

  function NonEmpty(docs: seq<Document>): seq<Document> {
    if docs == [] then []
    else (if Strip(docs[0].content) != "" then [docs[0]] else []) + NonEmpty(docs[1..])
  }

  function ContentLength(docs: seq<Document>): nat {
    if docs == [] then 0 else |docs[0].content| + ContentLength(docs[1..])
  }

  /**
    Every document with text survives once, in order, under its cleaned name, and the contents
    together exceed the budget by at most the marker's length per document.
  */
  lemma BudgetKeeps(docs: seq<Document>, left: int)
    ensures var out := Budget(docs, left);
            && |out| == |NonEmpty(docs)|
            && (forall i | 0 <= i < |out| ::
                  out[i].content != "" && (var name := Strip(NonEmpty(docs)[i].name);
                                           out[i].name == if name != "" then name else "document"))
            && ContentLength(out) <= Max(left, 0) + 20 * |out|
  {
    hide Budget, NonEmpty, Strip;
    BudgetNames(docs, left);
    BudgetLength(docs, left);
  }

  lemma {:induction false} BudgetNames(docs: seq<Document>, left: int)
    ensures var out := Budget(docs, left);
            && |out| == |NonEmpty(docs)|
            && forall i | 0 <= i < |out| :: out[i].name == CleanName(NonEmpty(docs)[i].name) && out[i].content != ""
    decreases |docs|
  {
    hide Strip, CleanName, FitContent, Spend;
    if docs != [] {
      var content := Strip(docs[0].content);
      BudgetNames(docs[1..], left);
      if content != "" {
        StripFacts(docs[0].content);
        FitTwice(content, left);
        BudgetNames(docs[1..], Spend(content, left));
      }
    }
  }

  lemma {:induction false} BudgetLength(docs: seq<Document>, left: int)
    ensures ContentLength(Budget(docs, left)) <= Max(left, 0) + 20 * |Budget(docs, left)|
    decreases |docs|
  {
    hide Strip, CleanName, FitContent;
    if docs != [] {
      var content := Strip(docs[0].content);
      if content == "" {
        BudgetLength(docs[1..], left);
      } else {
        StripFacts(docs[0].content);
        FitTwice(content, left);
        BudgetLength(docs[1..], Spend(content, left));
        SpentKeepsMarker(content, left);
        assert |DOCUMENT_TRUNCATION_MARKER| == 20;
        var first := Document(CleanName(docs[0].name), FitContent(content, left));
        var rest := Budget(docs[1..], Spend(content, left));
        assert ([first] + rest)[1..] == rest;
      }
    }
  }

  lemma SpentKeepsMarker(content: string, left: int)
    ensures left <= 0 ==> FitContent(content, left) == DOCUMENT_TRUNCATION_MARKER
  {
  }

  // ---------------------------------------------------------------- which text survives

  /** The stripped texts of the documents that have any. */
  function Texts(docs: seq<Document>): seq<string> {
    if docs == [] then []
    else (if Strip(docs[0].content) != "" then [Strip(docs[0].content)] else []) + Texts(docs[1..])
  }

  function Contents(docs: seq<Document>): (r: seq<string>)
    ensures |r| == |docs| && forall i | 0 <= i < |r| :: r[i] == docs[i].content
  {
    if docs == [] then [] else [docs[0].content] + Contents(docs[1..])
  }

  function Length(ts: seq<string>): nat {
    if ts == [] then 0 else |ts[0]| + Length(ts[1..])
  }

  /** The kept texts, by themselves. */
  function FitAll(ts: seq<string>, left: int): (r: seq<string>)
    ensures |r| == |ts|
  {
    if ts == [] then [] else [FitContent(ts[0], left)] + FitAll(ts[1..], Spend(ts[0], left))
  }

  predicate AllTexts(ts: seq<string>) { forall i | 0 <= i < |ts| :: ts[i] != "" && Trim(ts[i]) }

  lemma ContentsCons(d: Document, rest: seq<Document>)
    ensures Contents([d] + rest) == [d.content] + Contents(rest)
  {
  }

  lemma FitCons(t: string, ts: seq<string>, left: int)
    ensures FitAll([t] + ts, left) == [FitContent(t, left)] + FitAll(ts, Spend(t, left))
  {
    assert ([t] + ts)[1..] == ts;
  }

  lemma {:induction false} BudgetFits(docs: seq<Document>, left: int)
    ensures Contents(Budget(docs, left)) == FitAll(Texts(docs), left) && AllTexts(Texts(docs))
    decreases |docs|
  {
    hide Strip, CleanName, FitContent, Spend, Trim, Contents, FitAll;
    if docs == [] {
      NothingFits(left);
    } else {
      var content := Strip(docs[0].content);
      StripFacts(docs[0].content);
      if content == "" {
        BudgetFits(docs[1..], left);
        assert [] + Texts(docs[1..]) == Texts(docs[1..]);
      } else {
        BudgetFits(docs[1..], Spend(content, left));
        ContentsCons(Document(CleanName(docs[0].name), FitContent(content, left)),
                     Budget(docs[1..], Spend(content, left)));
        FitCons(content, Texts(docs[1..]), left);
      }
    }
  }

  lemma NothingFits(left: int)
    ensures Contents([]) == FitAll([], left)
  {
  }

  /** How a text too long is cut: the longest prefix beside the marker, less trailing blanks; or the marker. */
  predicate CutTo(text: string, room: int, cut: string) {
    if room <= |DOCUMENT_TRUNCATION_MARKER| + 1 then cut == DOCUMENT_TRUNCATION_MARKER
    else
      && |text| > room
      && cut == RStrip(text[..room - |DOCUMENT_TRUNCATION_MARKER| - 1]) + "\n" + DOCUMENT_TRUNCATION_MARKER
      && |DOCUMENT_TRUNCATION_MARKER| + 1 < |cut| <= room
  }

  lemma FitIsCut(text: string, left: int)
    requires text != "" && Trim(text)
    ensures |text| <= left ==> FitContent(text, left) == text && Spend(text, left) == left - |text|
    ensures |text| > left ==> CutTo(text, left, FitContent(text, left))
    ensures |text| > left && text != DOCUMENT_TRUNCATION_MARKER ==> FitContent(text, left) != text
    ensures left <= 0 ==> Spend(text, left) == left
    ensures left > 0 ==> Spend(text, left) == left - |FitContent(text, left)|
  {
    assert |DOCUMENT_TRUNCATION_MARKER| == 20;
    if 21 < left < |text| {
      var n := left - 21;
      RStripFacts(text[..n]);
      assert RStrip(text[..n]) + "\n" + DOCUMENT_TRUNCATION_MARKER
          == RStrip(text[..n]) + ("\n" + DOCUMENT_TRUNCATION_MARKER);
    }
  }

  lemma {:induction false} LengthAdds(a: seq<string>, b: seq<string>)
    ensures Length(a + b) == Length(a) + Length(b)
  {
    if a == [] {
      assert a + b == b;
    } else {
      assert (a + b)[1..] == a[1..] + b;
      LengthAdds(a[1..], b);
    }
  }

  /** Texts that fit together are kept whole, and the rest goes on with what they leave. */
  lemma {:induction false} FrontWhole(a: seq<string>, b: seq<string>, left: int)
    requires AllTexts(a) && Length(a) <= left
    ensures FitAll(a + b, left) == a + FitAll(b, left - Length(a))
    decreases |a|
  {
    hide FitContent, Spend, Trim;
    if a == [] {
      assert a + b == b;
    } else {
      FitIsCut(a[0], left);
      assert a + b == [a[0]] + (a[1..] + b) && a == [a[0]] + a[1..];
      FrontWhole(a[1..], b, left - |a[0]|);
      FitCons(a[0], a[1..] + b, left);
    }
  }

  /** From any point of the budget: whole while they fit together, then one cut, then what that leaves. */
  lemma FitKept(ts: seq<string>, left: int, k: nat)
    requires AllTexts(ts) && k < |ts| && Length(ts[..k]) <= left < Length(ts[..k + 1])
    ensures var kept := FitAll(ts, left);
            var room := left - Length(ts[..k]);
            && kept[..k] == ts[..k]
            && CutTo(ts[k], room, kept[k])
            && kept[k + 1..] == FitAll(ts[k + 1..], if room <= 0 then room else room - |kept[k]|)
  {
    hide FitContent, Spend, Trim, CutTo, FitAll, Length;
    var room := left - Length(ts[..k]);
    assert ts == ts[..k] + ts[k..] && ts[k..] == [ts[k]] + ts[k + 1..] && ts[..k + 1] == ts[..k] + [ts[k]];
    LengthAdds(ts[..k], [ts[k]]);
    LengthOne(ts[k]);
    FrontWhole(ts[..k], ts[k..], left);
    FitIsCut(ts[k], room);
    FitCons(ts[k], ts[k + 1..], room);
  }

  lemma LengthOne(t: string)
    ensures Length([t]) == |t|
  {
  }

  /**
    What the budget does to the texts. While they fit together they are whole. The first that does
    not is cut to the room left. The ones after it have only what that cut leaves unused.
  */
  lemma TextsKept(docs: seq<Document>, k: nat)
    requires k < |Texts(docs)|
    requires Length(Texts(docs)[..k]) <= MAX_DOCUMENT_CHARS < Length(Texts(docs)[..k + 1])
    ensures var ts, kept := Texts(docs), Contents(Budget(docs, MAX_DOCUMENT_CHARS));
            var room := MAX_DOCUMENT_CHARS - Length(ts[..k]);
            && |kept| == |ts| && kept[..k] == ts[..k]
            && CutTo(ts[k], room, kept[k])
            && kept[k + 1..] == FitAll(ts[k + 1..], if room <= 0 then room else room - |kept[k]|)
  {
    hide Trim, CutTo, Texts, Budget, FitAll, Length;
    BudgetFits(docs, MAX_DOCUMENT_CHARS);
    FitKept(Texts(docs), MAX_DOCUMENT_CHARS, k);
  }

  /** Documents that fit together are kept whole. */
  lemma TextsWhole(docs: seq<Document>)
    requires Length(Texts(docs)) <= MAX_DOCUMENT_CHARS
    ensures Contents(Budget(docs, MAX_DOCUMENT_CHARS)) == Texts(docs)
  {
    hide Texts, Budget;
    BudgetFits(docs, MAX_DOCUMENT_CHARS);
    FrontWhole(Texts(docs), [], MAX_DOCUMENT_CHARS);
    assert Texts(docs) + [] == Texts(docs);
  }

  /** A text is shortened only if it and the ones before it exceed the budget. */
  lemma WholeWithin(docs: seq<Document>, i: nat)
    requires i < |Texts(docs)| && Length(Texts(docs)[..i + 1]) <= MAX_DOCUMENT_CHARS
    ensures var out := Budget(docs, MAX_DOCUMENT_CHARS);
            |out| == |Texts(docs)| && out[i].content == Texts(docs)[i]
  {
    hide Texts, Budget, FitContent, Trim;
    var ts := Texts(docs);
    BudgetFits(docs, MAX_DOCUMENT_CHARS);
    var front := ts[..i + 1];
    assert ts == front + ts[i + 1..];
    FrontWhole(front, ts[i + 1..], MAX_DOCUMENT_CHARS);
    assert Contents(Budget(docs, MAX_DOCUMENT_CHARS))[i] == front[i];
  }

  /** Whether each of some texts is replaced by the marker: no room, too little for any of it, or the marker itself. */
  predicate AllMarked(ts: seq<string>, left: int) {
    ts == []
    || (&& (|| left <= 0 || (|ts[0]| > left && left <= |DOCUMENT_TRUNCATION_MARKER| + 1)
            || ts[0] == DOCUMENT_TRUNCATION_MARKER)
        && AllMarked(ts[1..], if left <= 0 then left else left - |DOCUMENT_TRUNCATION_MARKER|))
  }

  /** After the cut all texts are replaced by the marker exactly when the cut leaves too little for each in turn. */
  lemma {:induction false} MarkedExact(ts: seq<string>, left: int)
    requires AllTexts(ts)
    ensures (forall i | 0 <= i < |ts| :: FitAll(ts, left)[i] == DOCUMENT_TRUNCATION_MARKER) <==> AllMarked(ts, left)
    decreases |ts|
  {
    hide FitContent, Spend, Trim;
    if ts != [] {
      var t, marker := ts[0], DOCUMENT_TRUNCATION_MARKER;
      assert |marker| == 20;
      FitIsCut(t, left);
      MarkFirst(t, left);
      assert FitAll(ts, left) == [FitContent(t, left)] + FitAll(ts[1..], Spend(t, left));
      MarkedExact(ts[1..], Spend(t, left));
      var all := FitAll(ts, left);
      assert (forall i | 0 <= i < |ts| :: all[i] == marker)
        <==> all[0] == marker && forall i | 0 <= i < |ts[1..]| :: FitAll(ts[1..], Spend(t, left))[i] == marker by {
        assert forall i | 0 <= i < |ts[1..]| :: all[i + 1] == FitAll(ts[1..], Spend(t, left))[i];
      }
    }
  }

  lemma MarkFirst(t: string, left: int)
    requires t != "" && Trim(t)
    ensures FitContent(t, left) == DOCUMENT_TRUNCATION_MARKER
            <==> (|| left <= 0 || (|t| > left && left <= |DOCUMENT_TRUNCATION_MARKER| + 1)
                  || t == DOCUMENT_TRUNCATION_MARKER)
  {
    hide FitContent, Spend;
    assert |DOCUMENT_TRUNCATION_MARKER| == 20;
    FitIsCut(t, left);
  }

  // ---------------------------------------------------------------- a later document survives a cut

  const BLANKS: string := seq(11978, _ => ' ')
  const LONG: string := "x" + BLANKS + seq(100, _ => 'y')

  lemma {:induction false} RStripTail(a: string, b: string)
    requires forall i | 0 <= i < |b| :: IsSpace(b[i])
    ensures RStrip(a + b) == RStrip(a)
    decreases |b|
  {
    hide IsSpace;
    if b == [] {
      assert a + b == a;
    } else {
      var n := |b| - 1;
      assert (a + b)[..|a| + n] == a + b[..n] && (a + b)[|a| + n] == b[n];
      RStripTail(a, b[..n]);
    }
  }

  lemma LongFacts()
    ensures |LONG| == 12079 && Strip(LONG) == LONG && LONG[..11979] == "x" + BLANKS
    ensures |BLANKS| == 11978 && RStrip("x" + BLANKS) == "x"
  {
    var tail: string := seq(100, _ => 'y');
    assert |LONG| == 12079 && LONG[0] == 'x' && LONG[12078] == tail[99];
    StripFacts(LONG);
    RStripTail("x", BLANKS);
    assert !IsSpace("x"[0]);
  }

  lemma LongCut()
    ensures FitContent(LONG, MAX_DOCUMENT_CHARS) == "x\n" + DOCUMENT_TRUNCATION_MARKER
    ensures Spend(LONG, MAX_DOCUMENT_CHARS) == 11978
  {
    hide RStrip, Strip;
    LongFacts();
    assert |DOCUMENT_TRUNCATION_MARKER| == 20;
    assert "x" + ("\n" + DOCUMENT_TRUNCATION_MARKER) == "x\n" + DOCUMENT_TRUNCATION_MARKER;
  }

  lemma LongTexts()
    ensures Texts([Document("a", LONG), Document("b", "world")]) == [LONG, "world"]
  {
    hide Strip;
    var docs := [Document("a", LONG), Document("b", "world")];
    LongFacts();
    StripFacts("world");
    assert docs[1..] == [Document("b", "world")] && docs[1..][1..] == [];
    assert Texts(docs[1..][1..]) == [];
    assert Texts(docs[1..]) == ["world"];
    assert docs[0].content == LONG;
  }

  /**
    A text cut before a long run of blanks leaves their room: the document after it is kept whole,
    although the first alone exceeds the budget.
  */
  lemma LaterSurvives()
    ensures var docs := [Document("a", LONG), Document("b", "world")];
            && |LONG| > MAX_DOCUMENT_CHARS
            && Contents(Budget(docs, MAX_DOCUMENT_CHARS)) == ["x\n" + DOCUMENT_TRUNCATION_MARKER, "world"]
  {
    hide FitContent, Spend, Strip, RStrip, Texts, Budget, FitAll;
    LongFacts();
    LongTexts();
    BudgetFits([Document("a", LONG), Document("b", "world")], MAX_DOCUMENT_CHARS);
    LongCut();
    FitCons(LONG, ["world"], MAX_DOCUMENT_CHARS);
    FitIsCut("world", 11978);
    FitCons("world", [], 11978);
    assert [LONG] + ["world"] == [LONG, "world"] && ["world"] + [] == ["world"];
    FitNone(Spend("world", 11978));
  }

  lemma FitNone(left: int)
    ensures FitAll([], left) == []
  {
  }
}
