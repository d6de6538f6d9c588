/** Python string operations: stripping, searching, joining. */
module Text {
  import opened Common

  /** `str.isspace` for one code point. */
  predicate IsSpace(c: char) {
    || c == ' ' || '\t' <= c <= '\r' || '\U{1C}' <= c <= '\U{1F}' || c == '\U{85}' || c == '\U{A0}'
    || c == '\U{1680}' || '\U{2000}' <= c <= '\U{200A}' || c == '\U{2028}' || c == '\U{2029}'
    || c == '\U{202F}' || c == '\U{205F}' || c == '\U{3000}'
  }

  function LStrip(s: string): string {
    if s != [] && IsSpace(s[0]) then LStrip(s[1..]) else s
  }

  function RStrip(s: string): string {
    if s != [] && IsSpace(s[|s| - 1]) then RStrip(s[..|s| - 1]) else s
  }

  function Strip(s: string): string {
    RStrip(LStrip(s))
  }

  /** Neither end is blank. */
  predicate Trim(s: string) {
    s == [] || (!IsSpace(s[0]) && !IsSpace(s[|s| - 1]))
  }

  lemma {:induction false} LStripFacts(s: string)
    ensures |LStrip(s)| <= |s| && LStrip(s) == s[|s| - |LStrip(s)|..]
    ensures LStrip(s) != [] ==> !IsSpace(LStrip(s)[0])
  {
    if s != [] && IsSpace(s[0]) {
      LStripFacts(s[1..]);
    }
  }

  lemma {:induction false} RStripFacts(s: string)
    ensures RStrip(s) <= s
    ensures RStrip(s) != [] ==> !IsSpace(RStrip(s)[|RStrip(s)| - 1])
    ensures s != [] && !IsSpace(s[0]) ==> RStrip(s) != [] && RStrip(s)[0] == s[0]
  {
    if s != [] && IsSpace(s[|s| - 1]) {
      RStripFacts(s[..|s| - 1]);
    }
  }

  /** Stripping trims, never grows, and leaves a trimmed string alone. */
  lemma StripFacts(s: string)
    ensures Trim(Strip(s)) && |Strip(s)| <= |s|
    ensures Trim(s) ==> Strip(s) == s
  {
    LStripFacts(s);
    RStripFacts(LStrip(s));
  }

  lemma StripTwice(s: string)
    ensures Strip(Strip(s)) == Strip(s)
  {
    StripFacts(s);
    StripFacts(Strip(s));
  }

  // ---------------------------------------------------------------- searching

  predicate OccursAt(s: string, p: string, i: nat) {
    i + |p| <= |s| && s[i..i + |p|] == p
  }

  /** The first position at or after `from`. */
  function FindFrom(s: string, p: string, from: nat): Option<nat>
    decreases |s| - from
  {
    if from + |p| > |s| then None
    else if OccursAt(s, p, from) then Some(from)
    else FindFrom(s, p, from + 1)
  }

  function Find(s: string, p: string): Option<nat> { FindFrom(s, p, 0) }

  /** The last position at or before `to`. */
  function RFindFrom(s: string, p: string, to: nat): Option<nat> {
    if OccursAt(s, p, to) then Some(to)
    else if to == 0 then None
    else RFindFrom(s, p, to - 1)
  }

  function RFind(s: string, p: string): Option<nat> { RFindFrom(s, p, |s|) }

  lemma {:induction false} FindFromIs(s: string, p: string, from: nat, i: nat)
    requires from <= i && OccursAt(s, p, i)
    requires forall k | from <= k < i :: !OccursAt(s, p, k)
    ensures FindFrom(s, p, from) == Some(i)
    decreases i - from
  {
    if from < i {
      FindFromIs(s, p, from + 1, i);
    }
  }

  lemma {:induction false} FindFromSound(s: string, p: string, from: nat)
    ensures match FindFrom(s, p, from)
            case Some(i) => from <= i && OccursAt(s, p, i) && forall k | from <= k < i :: !OccursAt(s, p, k)
            case None => forall k | from <= k :: !OccursAt(s, p, k)
    decreases |s| - from
  {
    if from + |p| <= |s| && !OccursAt(s, p, from) {
      FindFromSound(s, p, from + 1);
    }
  }

  lemma {:induction false} RFindFromIs(s: string, p: string, to: nat, i: nat)
    requires i <= to && OccursAt(s, p, i)
    requires forall k | i < k <= to :: !OccursAt(s, p, k)
    ensures RFindFrom(s, p, to) == Some(i)
  {
    if i < to {
      RFindFromIs(s, p, to - 1, i);
    }
  }

  lemma {:induction false} RFindFromSound(s: string, p: string, to: nat)
    ensures RFindFrom(s, p, to).Some? ==> OccursAt(s, p, RFindFrom(s, p, to).value)
  {
    if !OccursAt(s, p, to) && to > 0 {
      RFindFromSound(s, p, to - 1);
    }
  }

  /** A pattern that ends the text is found last at the end. */
  lemma RFindAtEnd(s: string, p: string)
    requires p != []
    ensures RFind(s + p, p) == Some(|s|)
  {
    assert (s + p)[|s|..|s| + |p|] == p;
    RFindFromIs(s + p, p, |s + p|, |s|);
  }

  // ---------------------------------------------------------------- joining

  function Join(parts: seq<string>, sep: string): string {
    if parts == [] then ""
    else if |parts| == 1 then parts[0]
    else parts[0] + sep + Join(parts[1..], sep)
  }

  lemma {:induction false} JoinAppend(parts: seq<string>, sep: string, last: string)
    ensures Join(parts + [last], sep) == if parts == [] then last else Join(parts, sep) + sep + last
  {
    if parts == [] {
      assert parts + [last] == [last];
    } else {
      JoinAppend(parts[1..], sep, last);
      assert (parts + [last])[1..] == parts[1..] + [last];
      assert parts == [parts[0]] + parts[1..];
      if |parts| == 1 {
        assert Join(parts + [last], sep) == parts[0] + sep + Join([last], sep);
      } else {
        assert parts[0] + sep + (Join(parts[1..], sep) + sep + last)
            == (parts[0] + sep + Join(parts[1..], sep)) + sep + last;
      }
    }
  }

  lemma JoinOne(part: string, sep: string)
    ensures Join([part], sep) == part
  {
  }

  lemma JoinCons(first: string, rest: seq<string>, sep: string)
    requires rest != []
    ensures Join([first] + rest, sep) == first + sep + Join(rest, sep)
  {
    assert ([first] + rest)[1..] == rest;
  }
}
