/** Recovering the JSON document from a model's answer (internal/ai/orchestrator.go). */
module JsonExtract {
  import opened Prelude
  import opened Text

  predicate Opens(c: char) {
    c == '{' || c == '['
  }

  predicate Closes(c: char) {
    c == '}' || c == ']'
  }

  const OPEN_JSON := "```json"
  const FENCE := "```"

  function DropFences(s: string): string {
    TrimSuffix(TrimPrefix(TrimPrefix(s, OPEN_JSON), FENCE), FENCE)
  }

  /** Spaces, then an opening and a closing code fence, then spaces again. */
  function Unfence(s: string): string {
    TrimSpace(DropFences(TrimSpace(s)))
  }

  /** The first '{' or '[', or -1. */
  function FirstOpener(s: string): int {
    var startObj, startArr := IndexOf(s, '{'), IndexOf(s, '[');
    if startObj >= 0 && startArr >= 0 then
      if startObj < startArr then startObj else startArr
    else if startObj >= 0 then startObj
    else startArr
  }

  /** The last '}' or ']', or -1. */
  function LastCloser(s: string): int {
    var endObj, endArr := LastIndexOf(s, '}'), LastIndexOf(s, ']');
    if endArr > endObj then endArr else endObj
  }

  function ExtractFirstJSON(text: string): Option<string> {
    var s := Unfence(text);
    var start, end := FirstOpener(s), LastCloser(s);
    if start < 0 then None
    else if end <= start then None
    else Some(TrimSpace(s[start..end + 1]))
  }

  predicate Plain(c: char) {
    !Opens(c) && !Closes(c)
  }

  /** `t` is what remains of `s` after dropping characters that are no brackets from its ends. */
  ghost predicate Strips(s: string, t: string, p: nat) {
    && p + |t| <= |s| && (forall k :: 0 <= k < |t| ==> t[k] == s[p + k])
    && (forall i :: 0 <= i < p || p + |t| <= i < |s| ==> Plain(s[i]))
  }

  lemma StripsTrans(s: string, t: string, u: string, p: nat, q: nat)
    requires Strips(s, t, p) && Strips(t, u, q)
    ensures Strips(s, u, p + q)
  {
    assert forall k :: 0 <= k < |u| ==> u[k] == t[q + k];
    forall i | 0 <= i < p + q || p + q + |u| <= i < |s|
      ensures Plain(s[i])
    {
      if p <= i < p + |t| { assert Plain(t[i - p]); }
    }
  }

  lemma SpacesArePlain(c: char)
    ensures IsSpace(c) ==> Plain(c)
  {
    SpacePoints(c);
  }

  lemma TrimSpaceStrips(s: string) returns (p: nat)
    ensures Strips(s, TrimSpace(s), p)
  {
    var n;
    p, n := TrimSpaceSpec(s);
    forall i | 0 <= i < p || n <= i < |s|
      ensures Plain(s[i])
    {
      SpacesArePlain(s[i]);
    }
  }

  lemma TrimPrefixStrips(s: string, prefix: string) returns (p: nat)
    requires forall c :: c in prefix ==> Plain(c)
    ensures Strips(s, TrimPrefix(s, prefix), p)
  {
    p := if HasPrefix(s, prefix) then |prefix| else 0;
    if HasPrefix(s, prefix) {
      forall i | 0 <= i < p
        ensures Plain(s[i])
      {
        assert s[i] == prefix[i];
      }
    }
  }

  lemma TrimSuffixStrips(s: string, suffix: string)
    requires forall c :: c in suffix ==> Plain(c)
    ensures Strips(s, TrimSuffix(s, suffix), 0)
  {
    if HasSuffix(s, suffix) {
      var n := |s| - |suffix|;
      forall i | n <= i < |s|
        ensures Plain(s[i])
      {
        assert s[i] == suffix[i - n];
      }
    }
  }

  lemma FencesArePlain()
    ensures forall c :: c in OPEN_JSON ==> Plain(c)
    ensures forall c :: c in FENCE ==> Plain(c)
  {
  }

  /** Removing an opening and a closing fence removes no bracket. */
  lemma FencesStrip(s: string) returns (p: nat)
    ensures Strips(s, DropFences(s), p)
  {
    FencesArePlain();
    var s1 := TrimPrefix(s, OPEN_JSON);
    var s2 := TrimPrefix(s1, FENCE);
    p := TrimPrefixStrips(s, OPEN_JSON);
    var q := TrimPrefixStrips(s1, FENCE);
    StripsTrans(s, s1, s2, p, q);
    p := p + q;
    TrimSuffixStrips(s2, FENCE);
    StripsTrans(s, s2, TrimSuffix(s2, FENCE), p, 0);
  }

  lemma InnerStrips(s: string) returns (p: nat)
    ensures Strips(s, TrimSpace(DropFences(s)), p)
  {
    p := FencesStrip(s);
    var q := TrimSpaceStrips(DropFences(s));
    StripsTrans(s, DropFences(s), TrimSpace(DropFences(s)), p, q);
    p := p + q;
  }

  /** Nor does removing the spaces around. */
  lemma UnfenceStrips(s: string) returns (p: nat)
    ensures Strips(s, Unfence(s), p)
  {
    p := TrimSpaceStrips(s);
    var q := InnerStrips(TrimSpace(s));
    StripsTrans(s, TrimSpace(s), Unfence(s), p, q);
    p := p + q;
  }

  /** `i` is the first opening and `j` the last closing bracket of `s`. */
  ghost predicate Outermost(s: string, i: nat, j: nat) {
    && i < j < |s| && Opens(s[i]) && Closes(s[j])
    && (forall k :: 0 <= k < i ==> !Opens(s[k]))
    && (forall k :: j < k < |s| ==> !Closes(s[k]))
  }

  lemma BracketsFound(s: string, i: nat, j: nat)
    requires Outermost(s, i, j)
    ensures FirstOpener(s) == i && LastCloser(s) == j
  {
  }

  /** If there is any opening bracket before any closing one, there is an outermost pair. */
  lemma BracketsExist(s: string)
    requires 0 <= FirstOpener(s) < LastCloser(s)
    ensures Outermost(s, FirstOpener(s), LastCloser(s))
  {
  }

  /** A string that starts with an opening and ends with a closing bracket has no space to trim. */
  lemma BracketsTrimmed(doc: string)
    requires |doc| >= 2 && Opens(doc[0]) && Closes(doc[|doc| - 1])
    ensures TrimSpace(doc) == doc
  {
    SpacesArePlain(doc[0]);
    SpacesArePlain(doc[|doc| - 1]);
    TrimSpaceTrims(doc);
  }

  /** The extraction returns exactly the span from the first opening to the last closing bracket of the raw text. */
  lemma ExtractsOuterSpan(text: string, i: nat, j: nat)
    requires Outermost(text, i, j)
    ensures ExtractFirstJSON(text) == Some(text[i..j + 1])
  {
    var s, p := SpanUnfenced(text, i, j);
    ExtractsSpan(text, s, i - p, j - p, text[i..j + 1]);
  }

  /** The span is still there, and outermost, after fences and spaces are gone. */
  lemma SpanUnfenced(text: string, i: nat, j: nat) returns (s: string, p: nat)
    requires Outermost(text, i, j)
    ensures s == Unfence(text) && p <= i && Outermost(s, i - p, j - p) && s[i - p..j - p + 1] == text[i..j + 1]
  {
    p := UnfenceStrips(text);
    s := Unfence(text);
    StripsKeepSpan(text, s, p, i, j);
  }

  lemma ExtractsSpan(text: string, s: string, i: nat, j: nat, doc: string)
    requires s == Unfence(text) && Outermost(s, i, j) && s[i..j + 1] == doc
    ensures ExtractFirstJSON(text) == Some(doc)
  {
    BracketsFound(s, i, j);
    BracketsTrimmed(doc);
  }

  lemma StripsKeepSpan(text: string, s: string, p: nat, i: nat, j: nat)
    requires Strips(text, s, p) && Outermost(text, i, j)
    ensures p <= i && Outermost(s, i - p, j - p) && s[i - p..j - p + 1] == text[i..j + 1]
  {
    assert !Plain(text[i]) && !Plain(text[j]);
    assert forall k :: 0 <= k < |s| ==> s[k] == text[p + k];
  }

  ghost predicate Spans(text: string, i: nat, j: nat) {
    i < j < |text| && Opens(text[i]) && Closes(text[j])
  }

  lemma OuterSpan(text: string, i: nat, j: nat) returns (first: nat, last: nat)
    requires Spans(text, i, j)
    ensures Outermost(text, first, last)
  {
    first, last := i, j;
    while exists k :: 0 <= k < first && Opens(text[k])
      invariant Spans(text, first, last)
      decreases first
    {
      var k :| 0 <= k < first && Opens(text[k]);
      first := k;
    }
    while exists k :: last < k < |text| && Closes(text[k])
      invariant Spans(text, first, last) && forall k :: 0 <= k < first ==> !Opens(text[k])
      decreases |text| - last
    {
      var k :| last < k < |text| && Closes(text[k]);
      last := k;
    }
  }

  lemma ExtractedSpans(text: string) returns (i: nat, j: nat)
    requires ExtractFirstJSON(text).Some?
    ensures Spans(text, i, j)
  {
    var p := UnfenceStrips(text);
    var s := Unfence(text);
    BracketsExist(s);
    i, j := p + FirstOpener(s), p + LastCloser(s);
    assert text[i] == s[i - p] && text[j] == s[j - p];
  }

  /** It succeeds exactly when some opening bracket comes before some closing one. */
  lemma ExtractsIff(text: string)
    ensures ExtractFirstJSON(text).Some? <==> exists i, j :: Spans(text, i, j)
  {
    if i, j :| Spans(text, i, j) {
      var first, last := OuterSpan(text, i, j);
      ExtractsOuterSpan(text, first, last);
    }
    if ExtractFirstJSON(text).Some? {
      var i, j := ExtractedSpans(text);
    }
  }

  /**
   * Recovery: a document that starts with an opening and ends with a closing bracket is returned exactly,
   * whatever bracket-free text, code fences and spaces included, a model wraps around it.
   */
  lemma ExtractRecovers(before: string, doc: string, after: string)
    requires |doc| >= 2 && Opens(doc[0]) && Closes(doc[|doc| - 1])
    requires forall c :: c in before ==> !Opens(c)
    requires forall c :: c in after ==> !Closes(c)
    ensures ExtractFirstJSON(before + doc + after) == Some(doc)
  {
    var text, i := before + doc + after, |before|;
    var j := i + |doc| - 1;
    assert forall k :: j < k < |text| ==> text[k] == after[k - j - 1];
    ExtractsOuterSpan(text, i, j);
    assert text[i..j + 1] == doc;
  }

  /** Idempotence: extracting from what was extracted changes nothing. */
  lemma ExtractIdempotent(text: string)
    requires ExtractFirstJSON(text).Some?
    ensures var doc := ExtractFirstJSON(text).value;
            && |doc| >= 2 && Opens(doc[0]) && Closes(doc[|doc| - 1])
            && ExtractFirstJSON(doc) == Some(doc)
  {
    var a, b := ExtractedSpans(text);
    var i, j := OuterSpan(text, a, b);
    ExtractsOuterSpan(text, i, j);
    var doc := text[i..j + 1];
    ExtractsOuterSpan(doc, 0, |doc| - 1);
    assert doc[0..|doc|] == doc;
  }
}
