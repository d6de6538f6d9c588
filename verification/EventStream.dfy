/** The server-sent event stream: its printer and its two readers. */
module EventStream {
  import opened Common
  import opened Text

  const BLOCK_END := "\n\n"

  /** A JSON object as it is printed: one line, not empty, no blank in front. */
  predicate Payload(p: string) {
    p != "" && !IsSpace(p[0]) && !BrowserSpace(p[0]) && forall i | 0 <= i < |p| :: p[i] != '\n' && p[i] != '\r'
  }

  function Print(ps: seq<string>): string {
    if ps == [] then "" else "data: " + ps[0] + BLOCK_END + Print(ps[1..])
  }

  // ---------------------------------------------------------------- the browser

  /** White space of a regular expression in the browser. */
  predicate BrowserSpace(c: char) {
    || '\t' <= c <= '\r' || c == ' ' || c == '\U{A0}' || c == '\U{1680}' || '\U{2000}' <= c <= '\U{200A}'
    || c == '\U{2028}' || c == '\U{2029}' || c == '\U{202F}' || c == '\U{205F}' || c == '\U{3000}' || c == '\U{FEFF}'
  }

  function DropBlanks(s: string): string {
    if s != "" && BrowserSpace(s[0]) then DropBlanks(s[1..]) else s
  }

  /** The blocks of a text that are ended by a blank line. */
  function Complete(s: string): seq<string>
    decreases |s|
  {
    match Find(s, BLOCK_END)
    case None => []
    case Some(i) =>
      FindFromSound(s, BLOCK_END, 0);
      [s[..i]] + Complete(s[i + 2..])
  }

  /** What comes after the last of them. */
  function Rest(s: string): string
    decreases |s|
  {
    match Find(s, BLOCK_END)
    case None => s
    case Some(i) =>
      FindFromSound(s, BLOCK_END, 0);
      Rest(s[i + 2..])
  }

  /** Split at newlines. */
  function Lines(s: string): (lines: seq<string>)
    ensures lines != []
    decreases |s|
  {
    match Find(s, "\n")
    case None => [s]
    case Some(i) =>
      FindFromSound(s, "\n", 0);
      [s[..i]] + Lines(s[i + 1..])
  }

  predicate IsData(line: string) { "data:" <= line }

  /** The data lines, without their field name. */
  function DataOf(lines: seq<string>): seq<string> {
    if lines == [] then []
    else (if IsData(lines[0]) then [DropBlanks(lines[0][5..])] else []) + DataOf(lines[1..])
  }

  /** The payloads of some blocks, in order; a block without data has none. */
  function Events(blocks: seq<string>): seq<string> {
    if blocks == [] then []
    else
      var n := |blocks| - 1;
      Events(blocks[..n]) + BlockEvents(blocks[n])
  }

  function BlockEvents(block: string): seq<string> {
    var data := DataOf(Lines(block));
    if data == [] then [] else [Join(data, "\n")]
  }

  /** The events up to and including the first at which the reader stops. */
  function UpTo(events: seq<string>, stops: string -> bool): seq<string> {
    if events == [] then []
    else if stops(events[0]) then [events[0]]
    else [events[0]] + UpTo(events[1..], stops)
  }

  predicate Going(events: seq<string>, stops: string -> bool) {
    forall i | 0 <= i < |events| :: !stops(events[i])
  }

  function Concat(pieces: seq<string>): string {
    if pieces == [] then "" else Concat(pieces[..|pieces| - 1]) + pieces[|pieces| - 1]
  }

  /**
    The inner loop of `StreamController.start`: the events of some blocks, up to the first at which the
    reader stops.
  */
  method HandleBlocks(blocks: seq<string>, stops: string -> bool) returns (seen: seq<string>, stopped: bool)
    ensures seen == UpTo(Events(blocks), stops)
    ensures stopped == !Going(Events(blocks), stops)
  {
    hide BlockEvents, UpTo, Going, Events;
    seen := [];
    NothingYet(stops);
    for k := 0 to |blocks|
      invariant seen == Events(blocks[..k]) && Going(seen, stops)
    {
      var data := BlockEvents(blocks[k]);
      EventsNext(blocks, k);
      if data == [] {
        continue;
      }
      if stops(data[0]) {
        EventsPrefix(blocks[..k + 1], blocks);
        StopHere(seen, data[0], Events(blocks), stops);
        seen := seen + [data[0]];
        return seen, true;
      }
      GoingOn(seen, data[0], stops);
      seen := seen + [data[0]];
    }
    assert blocks[..|blocks|] == blocks;
    AllSeen(seen, stops);
    stopped := false;
  }

  /**
    `StreamController.start`: the events handled while the body arrives read by read. `stops` says
    which events end the reading: an error, or the final event.
  */
  method Start(pieces: seq<string>, stops: string -> bool) returns (seen: seq<string>)
    ensures seen == UpTo(Events(Complete(Concat(pieces))), stops)
  {
    hide Complete, Rest, UpTo, Going, Events, Concat;
    seen := [];
    var buffer := "";
    NothingYet(stops);
    for i := 0 to |pieces|
      invariant buffer == Rest(Concat(pieces[..i]))
      invariant seen == Events(Complete(Concat(pieces[..i]))) && Going(seen, stops)
    {
      ghost var text := Concat(pieces[..i]);
      ConcatNext(pieces, i);
      CompleteAppend(text, pieces[i]);
      buffer := buffer + pieces[i];
      var chunks := Complete(buffer);
      buffer := Rest(buffer);
      var more, stopped := HandleBlocks(chunks, stops);
      EventsConcat(Complete(text), chunks);
      if stopped {
        Stopped(pieces, i + 1, seen, Events(chunks), stops);
        return seen + more;
      }
      AllSeen(Events(chunks), stops);
      BothGo(seen, more, stops);
      seen := seen + more;
    }
    assert pieces[..|pieces|] == pieces;
    AllSeen(seen, stops);
  }

  lemma ConcatNext(pieces: seq<string>, i: nat)
    requires i < |pieces|
    ensures Concat(pieces[..i + 1]) == Concat(pieces[..i]) + pieces[i]
  {
    assert pieces[..i + 1][..i] == pieces[..i];
  }

  lemma EventsNext(blocks: seq<string>, k: nat)
    requires k < |blocks|
    ensures Events(blocks[..k + 1])
            == if BlockEvents(blocks[k]) == [] then Events(blocks[..k])
                else Events(blocks[..k]) + [BlockEvents(blocks[k])[0]]
  {
    assert blocks[..k + 1][..k] == blocks[..k];
  }

  lemma {:induction false} EventsConcat(a: seq<string>, b: seq<string>)
    ensures Events(a + b) == Events(a) + Events(b)
    decreases |b|
  {
    hide BlockEvents;
    if b == [] {
      assert a + b == a;
    } else {
      var n := |b| - 1;
      assert (a + b)[..|a| + n] == a + b[..n];
      EventsConcat(a, b[..n]);
    }
  }

  lemma BothGo(a: seq<string>, b: seq<string>, stops: string -> bool)
    requires Going(a, stops) && Going(b, stops)
    ensures Going(a + b, stops)
  {
  }

  /** Once an event stops the reader, what would still arrive does not matter. */
  lemma Stopped(pieces: seq<string>, i: nat, before: seq<string>, events: seq<string>, stops: string -> bool)
    requires i <= |pieces| && Events(Complete(Concat(pieces[..i]))) == before + events
    requires Going(before, stops) && !Going(events, stops)
    ensures UpTo(Events(Complete(Concat(pieces))), stops) == before + UpTo(events, stops)
  {
    hide Complete, Rest, BlockEvents, UpTo, Going;
    assert pieces[..i] + pieces[i..] == pieces;
    ReadsAppend(pieces[..i], pieces[i..]);
    CompleteAppend(Concat(pieces[..i]), Concat(pieces[i..]));
    EventsPrefix(Complete(Concat(pieces[..i])), Complete(Concat(pieces)));
    var all := Events(Complete(Concat(pieces)));
    assert all == before + events + all[|before + events|..];
    UpToInside(before, events, all[|before + events|..], stops);
  }

  lemma {:induction false} UpToInside(a: seq<string>, b: seq<string>, c: seq<string>, stops: string -> bool)
    requires Going(a, stops) && !Going(b, stops)
    ensures UpTo(a + b + c, stops) == a + UpTo(b, stops)
    decreases |a| + |b|
  {
    if a != [] {
      assert (a + b + c)[0] == a[0] && (a + b + c)[1..] == a[1..] + b + c;
      UpToInside(a[1..], b, c, stops);
      assert a == [a[0]] + a[1..];
    } else {
      assert a + b + c == b + c && (b + c)[0] == b[0] && (b + c)[1..] == b[1..] + c;
      if !stops(b[0]) {
        UpToInside(a, b[1..], c, stops);
        assert a + b[1..] + c == b[1..] + c;
      }
    }
  }

  lemma NothingYet(stops: string -> bool)
    ensures Complete("") == [] && Rest("") == "" && Concat([]) == "" && Events([]) == [] && Going([], stops)
  {
  }

  lemma GoingOn(events: seq<string>, e: string, stops: string -> bool)
    requires Going(events, stops) && !stops(e)
    ensures Going(events + [e], stops)
  {
  }

  lemma {:induction false} AllSeen(events: seq<string>, stops: string -> bool)
    requires Going(events, stops)
    ensures UpTo(events, stops) == events
  {
    if events != [] {
      assert !stops(events[0]);
      AllSeen(events[1..], stops);
    }
  }

  lemma {:induction false} StopHere(before: seq<string>, e: string, all: seq<string>, stops: string -> bool)
    requires Going(before, stops) && stops(e) && before + [e] <= all
    ensures UpTo(all, stops) == before + [e] && !Going(all, stops)
  {
    assert all[|before|] == (before + [e])[|before|];
    if before == [] {
      assert all[0] == e;
    } else {
      assert all[0] == before[0] && before[1..] + [e] <= all[1..];
      StopHere(before[1..], e, all[1..], stops);
    }
  }

  lemma {:induction false} EventsPrefix(some: seq<string>, all: seq<string>)
    requires some <= all
    ensures Events(some) <= Events(all)
    decreases |all|
  {
    hide BlockEvents;
    if |some| == |all| {
      assert some == all;
    } else {
      EventsPrefix(some, all[..|all| - 1]);
    }
  }

  lemma {:induction false} ReadsAppend(a: seq<string>, b: seq<string>)
    ensures Concat(a + b) == Concat(a) + Concat(b)
    decreases |b|
  {
    if b == [] {
      assert a + b == a;
    } else {
      var n := |b| - 1;
      assert (a + b)[..|a| + n] == a + b[..n];
      ReadsAppend(a, b[..n]);
    }
  }

  /**
    Reading piecewise is reading at once, for any text cut anywhere: the blocks completed so far
    stay, and the rest of the buffer carries everything needed for the next ones.
  */
  lemma {:induction false} CompleteAppend(s: string, t: string)
    ensures Complete(s + t) == Complete(s) + Complete(Rest(s) + t)
    ensures Rest(s + t) == Rest(Rest(s) + t)
    decreases |s|
  {
    FindFromSound(s, BLOCK_END, 0);
    match Find(s, BLOCK_END)
    case None =>
    case Some(i) =>
      FirstStays(s, t, i);
      assert (s + t)[..i] == s[..i] && (s + t)[i + 2..] == s[i + 2..] + t;
      CompleteAppend(s[i + 2..], t);
  }

  lemma FirstStays(s: string, t: string, i: nat)
    requires Find(s, BLOCK_END) == Some(i)
    ensures i + 2 <= |s| && Find(s + t, BLOCK_END) == Some(i)
  {
    FindFromSound(s, BLOCK_END, 0);
    assert (s + t)[i..i + 2] == s[i..i + 2];
    forall k: nat | k < i
      ensures !OccursAt(s + t, BLOCK_END, k)
    {
      assert (s + t)[k..k + 2] == s[k..k + 2];
      assert !OccursAt(s, BLOCK_END, k);
    }
    FindFromIs(s + t, BLOCK_END, 0, i);
  }

  // ---------------------------------------------------------------- the line reader

  function TrimLine(s: string): string {
    if s != "" && (s[|s| - 1] == '\r' || s[|s| - 1] == '\n') then TrimLine(s[..|s| - 1]) else s
  }

  /** The events of some lines, after the data lines of an open block. */
  function LineEvents(lines: seq<string>, open: seq<string>): seq<string> {
    if lines == [] then (if open == [] then [] else [Join(open, "\n")])
    else
      var line := TrimLine(lines[0]);
      if line == "" then (if open == [] then [] else [Join(open, "\n")]) + LineEvents(lines[1..], [])
      else LineEvents(lines[1..], if IsData(line) then open + [LStrip(line[5..])] else open)
  }

  /** `iter_sse_events`. */
  method IterEvents(lines: seq<string>) returns (events: seq<string>)
    ensures events == LineEvents(lines, [])
  {
    hide TrimLine, LStrip, Join;
    events := [];
    var open: seq<string> := [];
    for i := 0 to |lines|
      invariant events + LineEvents(lines[i..], open) == LineEvents(lines, [])
    {
      assert lines[i..][1..] == lines[i + 1..];
      var line := TrimLine(lines[i]);
      if line == "" {
        if open != [] {
          events := events + [Join(open, "\n")];
          open := [];
        }
        continue;
      }
      if IsData(line) {
        open := open + [LStrip(line[5..])];
      }
    }
    if open != [] {
      events := events + [Join(open, "\n")];
    }
  }

  // ---------------------------------------------------------------- round trip

  lemma NoBreak(p: string)
    requires Payload(p)
    ensures forall i | 0 <= i < |"data: " + p| :: ("data: " + p)[i] != '\n' && ("data: " + p)[i] != '\r'
  {
  }

  /** Text without newlines before a pattern of newlines. */
  lemma FindBreak(a: string, pattern: string, b: string)
    requires pattern != "" && pattern[0] == '\n' && forall i | 0 <= i < |a| :: a[i] != '\n'
    ensures Find(a + pattern + b, pattern) == Some(|a|)
  {
    var s := a + pattern + b;
    assert s[|a|..|a| + |pattern|] == pattern;
    forall k: nat | k < |a|
      ensures !OccursAt(s, pattern, k)
    {
      assert s[k] == a[k];
      assert k + |pattern| <= |s| ==> s[k..k + |pattern|][0] == s[k];
    }
    FindFromIs(s, pattern, 0, |a|);
  }

  lemma NoFind(a: string)
    requires forall i | 0 <= i < |a| :: a[i] != '\n'
    ensures Find(a, "\n").None?
  {
    forall k: nat
      ensures !OccursAt(a, "\n", k)
    {
      assert k + 1 <= |a| ==> a[k..k + 1][0] == a[k];
    }
    FindFromSound(a, "\n", 0);
  }

  lemma DataLine(p: string)
    requires Payload(p)
    ensures var line := "data: " + p;
            && IsData(line) && line[5..] == " " + p && TrimLine(line) == line
            && DropBlanks(line[5..]) == p && LStrip(line[5..]) == p
  {
    hide IsSpace, BrowserSpace;
    var line := "data: " + p;
    assert line[5..] == " " + p && (" " + p)[1..] == p;
    assert "data:" <= line;
    NoBreak(p);
    SpaceIsSpace();
  }

  lemma SpaceIsSpace()
    ensures IsSpace(' ') && BrowserSpace(' ')
  {
  }

  lemma DataBlock(p: string)
    requires Payload(p)
    ensures BlockEvents("data: " + p) == [p]
  {
    hide IsData, DropBlanks, Join, Payload;
    var line := "data: " + p;
    DataLine(p);
    NoBreak(p);
    NoFind(line);
    var lines := [line];
    assert Lines(line) == lines;
    assert lines[1..] == [];
    assert DataOf(lines) == [p];
    JoinOne(p, "\n");
  }

  lemma {:induction false} EventsCons(block: string, blocks: seq<string>)
    ensures Events([block] + blocks) == BlockEvents(block) + Events(blocks)
    decreases |blocks|
  {
    hide BlockEvents;
    if blocks == [] {
      assert [block] + blocks == [block] && [block][..0] == [];
    } else {
      var n := |blocks| - 1;
      assert ([block] + blocks)[..n + 1] == [block] + blocks[..n];
      EventsCons(block, blocks[..n]);
    }
  }

  /** A browser that pieces everything at once sees the printed payloads, with nothing left over. */
  lemma {:induction false} PrintedEvents(ps: seq<string>)
    requires forall i | 0 <= i < |ps| :: Payload(ps[i])
    ensures Events(Complete(Print(ps))) == ps && Rest(Print(ps)) == ""
  {
    hide BlockEvents, Payload, Find;
    if ps == [] {
      NothingYet(_ => false);
    } else {
      var line, rest := "data: " + ps[0], Print(ps[1..]);
      NoBreak(ps[0]);
      FindBreak(line, BLOCK_END, rest);
      assert Print(ps) == line + BLOCK_END + rest;
      assert Print(ps)[..|line|] == line && Print(ps)[|line| + 2..] == rest;
      PrintedEvents(ps[1..]);
      DataBlock(ps[0]);
      EventsCons(line, Complete(rest));
      assert ps == [ps[0]] + ps[1..];
    }
  }

  /** The line reader sees the same. */
  lemma {:induction false} PrintedLines(ps: seq<string>)
    requires forall i | 0 <= i < |ps| :: Payload(ps[i])
    ensures LineEvents(Lines(Print(ps)), []) == ps
  {
    hide Payload, Find, TrimLine, LStrip, IsData, Join;
    if ps == [] {
      NoFind("");
      BlankLine();
      assert LineEvents([""], []) == [];
    } else {
      var line, rest := "data: " + ps[0], Print(ps[1..]);
      NoBreak(ps[0]);
      assert Print(ps) == line + "\n" + ("\n" + rest);
      FindBreak(line, "\n", "\n" + rest);
      FindBreak("", "\n", rest);
      assert "" + "\n" + rest == "\n" + rest;
      assert Print(ps)[..|line|] == line && Print(ps)[|line| + 1..] == "\n" + rest;
      assert ("\n" + rest)[..0] == "" && ("\n" + rest)[1..] == rest;
      assert Lines(Print(ps)) == [line] + ([""] + Lines(rest));
      PrintedLines(ps[1..]);
      DataLine(ps[0]);
      BlankLine();
      LineStep(line, ps[0], Lines(rest));
      assert ps == [ps[0]] + ps[1..];
    }
  }

  lemma BlankLine()
    ensures TrimLine("") == ""
  {
  }

  lemma LineStep(line: string, p: string, rest: seq<string>)
    requires line != "" && TrimLine(line) == line && IsData(line) && LStrip(line[5..]) == p
    ensures LineEvents([line] + ([""] + rest), []) == [p] + LineEvents(rest, [])
  {
    hide TrimLine, LStrip, IsData;
    BlankLine();
    JoinOne(p, "\n");
    assert ([line] + ([""] + rest))[1..] == [""] + rest && ([""] + rest)[1..] == rest;
    assert [] + [p] == [p];
    assert LineEvents([""] + rest, [p]) == [p] + LineEvents(rest, []);
  }

  /**
    For every sequence of payloads and every way to cut the printed text into reads, the browser
    handles the printed payloads up to its stopping event, as the line reader gives them.
  */
  lemma StreamRoundTrip(ps: seq<string>, pieces: seq<string>, stops: string -> bool)
    requires forall i | 0 <= i < |ps| :: Payload(ps[i])
    requires Concat(pieces) == Print(ps)
    ensures UpTo(Events(Complete(Concat(pieces))), stops) == UpTo(ps, stops)
    ensures LineEvents(Lines(Concat(pieces)), []) == ps
  {
    hide Events, Complete, Lines, LineEvents;
    PrintedEvents(ps);
    PrintedLines(ps);
  }

  // ---------------------------------------------------------------- events of several lines

  /** One data line for each line of a text. */
  function DataLines(ds: seq<string>): seq<string> {
    if ds == [] then [] else ["data: " + ds[0]] + DataLines(ds[1..])
  }

  lemma {:induction false} DataLinesOf(ds: seq<string>)
    requires forall i | 0 <= i < |ds| :: Payload(ds[i])
    ensures |DataLines(ds)| == |ds| && DataOf(DataLines(ds)) == ds
    ensures forall i, k | 0 <= i < |ds| && 0 <= k < |DataLines(ds)[i]| :: DataLines(ds)[i][k] != '\n'
  {
    hide IsData, DropBlanks, Payload;
    if ds != [] {
      DataLine(ds[0]);
      NoBreak(ds[0]);
      DataLinesOf(ds[1..]);
      var line := "data: " + ds[0];
      assert DataLines(ds)[0] == line && DataLines(ds)[1..] == DataLines(ds[1..]);
      assert forall i | 0 < i < |ds| :: DataLines(ds)[i] == DataLines(ds[1..])[i - 1];
    }
  }

  lemma {:induction false} LinesOfJoin(xs: seq<string>)
    requires xs != [] && forall i, k | 0 <= i < |xs| && 0 <= k < |xs[i]| :: xs[i][k] != '\n'
    ensures Lines(Join(xs, "\n")) == xs
    decreases |xs|
  {
    assert forall k | 0 <= k < |xs[0]| :: xs[0][k] != '\n';
    if |xs| == 1 {
      NoFind(xs[0]);
    } else {
      var rest := Join(xs[1..], "\n");
      FindBreak(xs[0], "\n", rest);
      var s := xs[0] + "\n" + rest;
      assert s[..|xs[0]|] == xs[0] && s[|xs[0]| + 1..] == rest;
      LinesOfJoin(xs[1..]);
      assert xs == [xs[0]] + xs[1..];
    }
  }

  lemma {:induction false} OpenLines(ds: seq<string>, open: seq<string>)
    requires (forall i | 0 <= i < |ds| :: Payload(ds[i])) && open + ds != []
    ensures LineEvents(DataLines(ds), open) == [Join(open + ds, "\n")]
    decreases |ds|
  {
    hide LineEvents, Join, Payload;
    OpenNone(open);
    if ds == [] {
      assert open + ds == open;
    } else {
      OpenLine(ds[0], DataLines(ds[1..]), open);
      OpenLines(ds[1..], open + [ds[0]]);
      assert open + [ds[0]] + ds[1..] == open + ds;
    }
  }

  lemma OpenNone(open: seq<string>)
    ensures LineEvents([], open) == if open == [] then [] else [Join(open, "\n")]
  {
  }

  lemma OpenLine(d: string, rest: seq<string>, open: seq<string>)
    requires Payload(d)
    ensures LineEvents(["data: " + d] + rest, open) == LineEvents(rest, open + [d])
  {
    hide TrimLine, LStrip, Join, Payload, IsData;
    DataLine(d);
    var lines := ["data: " + d] + rest;
    assert lines[0] == "data: " + d && lines[1..] == rest;
    assert "data: " + d != "";
  }

  /** A text sent as several data lines of one block is one event, with its line breaks, for both readers. */
  lemma ManyLines(ds: seq<string>)
    requires ds != [] && forall i | 0 <= i < |ds| :: Payload(ds[i])
    ensures BlockEvents(Join(DataLines(ds), "\n")) == [Join(ds, "\n")]
    ensures LineEvents(DataLines(ds), []) == [Join(ds, "\n")]
  {
    hide Join, Lines, DataOf, LineEvents, Payload;
    DataLinesOf(ds);
    LinesOfJoin(DataLines(ds));
    OpenLines(ds, []);
    assert [] + ds == ds;
  }
}
