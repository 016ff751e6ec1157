/** Comma-separated filter lists (internal/telemetry/search.go). */
module ListParsers {
  import opened Prelude
  import opened Text

  datatype ParseError = Invalid(part: string) | Empty

  const SEVERITIES := {"DEBUG", "INFO", "WARN", "ERROR", "FATAL"}

  predicate IsValidSeverity(s: string) {
    s in SEVERITIES
  }

  /** The five severities. */
  lemma SeverityNames(s: string)
    ensures IsValidSeverity(s) <==> s == "DEBUG" || s == "INFO" || s == "WARN" || s == "ERROR" || s == "FATAL"
  {
  }

  function MapChars(upper: char -> char, s: string): string {
    if s == "" then "" else [upper(s[0])] + MapChars(upper, s[1..])
  }

  /** One part of the list as the parser looks at it. */
  function Normal(upper: char -> char, part: string): string {
    TrimSpace(MapChars(upper, part))
  }

  /** The accepted parts in order; blank parts are skipped, the first part that is not valid fails the list. */
  function Collect(upper: char -> char, valid: string -> bool, parts: seq<string>): Result<seq<string>, ParseError> {
    if parts == [] then Ok([])
    else
      var before := Collect(upper, valid, parts[..|parts| - 1]);
      var part := Normal(upper, parts[|parts| - 1]);
      if before.Err? || part == "" then before
      else if !valid(part) then Err(Invalid(part))
      else Ok(before.value + [part])
  }

  function ParseList(upper: char -> char, valid: string -> bool, raw: string): Result<seq<string>, ParseError> {
    var parsed := Collect(upper, valid, Split(raw, ','));
    if parsed == Ok([]) then Err(Empty) else parsed
  }

  function Same(c: char): char {
    c
  }

  /** Each character is mapped on its own. */
  lemma {:induction false} MappedChars(upper: char -> char, s: string)
    ensures |MapChars(upper, s)| == |s|
    ensures forall i :: 0 <= i < |s| ==> MapChars(upper, s)[i] == upper(s[i])
  {
    if s != "" { MappedChars(upper, s[1..]); }
  }

  /** What the parser looks at: what lies between the outermost characters that are no space, each in upper case. */
  lemma NormalMeans(upper: char -> char, part: string) returns (p: nat, n: nat)
    ensures p <= n <= |part| && |Normal(upper, part)| == n - p
    ensures forall i :: p <= i < n ==> Normal(upper, part)[i - p] == upper(part[i])
    ensures forall i :: 0 <= i < p || n <= i < |part| ==> IsSpace(upper(part[i]))
    ensures p < n ==> !IsSpace(upper(part[p])) && !IsSpace(upper(part[n - 1]))
  {
    MappedChars(upper, part);
    p, n := TrimSpaceSpec(MapChars(upper, part));
  }

  predicate Blank(upper: char -> char, part: string) {
    Normal(upper, part) == ""
  }

  predicate Fine(upper: char -> char, valid: string -> bool, part: string) {
    Blank(upper, part) || valid(Normal(upper, part))
  }

  /** The values are, in order, what the parts at `at` say, and those are all the parts that are not blank. */
  ghost predicate TakenFrom(upper: char -> char, parts: seq<string>, xs: seq<string>, at: seq<nat>) {
    && |at| == |xs|
    && (forall k :: 0 <= k < |at| ==> at[k] < |parts| && xs[k] == Normal(upper, parts[at[k]]))
    && (forall k, m :: 0 <= k < m < |at| ==> at[k] < at[m])
    && (forall i :: 0 <= i < |parts| ==> (i in at <==> !Blank(upper, parts[i])))
  }

  lemma TakeNext(upper: char -> char, parts: seq<string>, xs: seq<string>, at: seq<nat>, part: string)
    requires TakenFrom(upper, parts, xs, at)
    ensures if Blank(upper, part) then TakenFrom(upper, parts + [part], xs, at)
            else TakenFrom(upper, parts + [part], xs + [Normal(upper, part)], at + [|parts|])
  {
    assert forall i :: i in at ==> 0 <= i < |parts|;
  }

  ghost predicate AllFine(upper: char -> char, valid: string -> bool, parts: seq<string>) {
    forall i :: 0 <= i < |parts| ==> Fine(upper, valid, parts[i])
  }

  /** A list whose parts are all blank or valid succeeds with those that are not blank. */
  lemma {:induction false} CollectTakes(upper: char -> char, valid: string -> bool, parts: seq<string>)
    returns (at: seq<nat>)
    requires AllFine(upper, valid, parts)
    ensures Collect(upper, valid, parts).Ok? && TakenFrom(upper, parts, Collect(upper, valid, parts).value, at)
  {
    at := [];
    if parts != [] {
      var last := |parts| - 1;
      var before := parts[..last];
      at := CollectTakes(upper, valid, before);
      assert parts == before + [parts[last]] && Fine(upper, valid, parts[last]);
      TakeNext(upper, before, Collect(upper, valid, before).value, at, parts[last]);
      if !Blank(upper, parts[last]) { at := at + [last]; }
    }
  }

  /** Any other list fails with the first part that is neither. */
  lemma {:induction false} CollectRefuses(upper: char -> char, valid: string -> bool, parts: seq<string>)
    returns (bad: nat)
    requires !AllFine(upper, valid, parts)
    ensures bad < |parts| && AllFine(upper, valid, parts[..bad]) && !Fine(upper, valid, parts[bad])
    ensures Collect(upper, valid, parts) == Err(Invalid(Normal(upper, parts[bad])))
  {
    var last := |parts| - 1;
    var before := parts[..last];
    if AllFine(upper, valid, before) {
      bad := last;
      var at := CollectTakes(upper, valid, before);
    } else {
      bad := CollectRefuses(upper, valid, before);
      assert parts[..bad] == before[..bad];
    }
  }

  /**
   * What parsing a list means, by the parts between the commas: it fails with the first part that is neither blank nor
   * valid; otherwise it returns the parts that are not blank, in order; if there are none, the list is empty.
   */
  lemma ParseMeans(upper: char -> char, valid: string -> bool, raw: string, parts: seq<string>) returns (at: seq<nat>)
    requires |parts| > 0 && Join(parts, ',') == raw && forall i :: 0 <= i < |parts| ==> ',' !in parts[i]
    ensures var r := ParseList(upper, valid, raw);
            if !AllFine(upper, valid, parts) then
              && |at| == 1 && at[0] < |parts| && AllFine(upper, valid, parts[..at[0]])
              && !Fine(upper, valid, parts[at[0]]) && r == Err(Invalid(Normal(upper, parts[at[0]])))
            else if forall i :: 0 <= i < |parts| ==> Blank(upper, parts[i]) then r == Err(Empty)
            else r.Ok? && TakenFrom(upper, parts, r.value, at)
  {
    SplitJoin(parts, ',');
    if AllFine(upper, valid, parts) {
      at := CollectTakes(upper, valid, parts);
      if at != [] { assert at[0] in at; }
    } else {
      var bad := CollectRefuses(upper, valid, parts);
      at := [bad];
    }
  }

  method ParseUUIDList(validUUID: string -> bool, raw: string) returns (r: Result<seq<string>, ParseError>)
    ensures r == ParseList(Same, validUUID, raw)
  {
    var parts := Split(raw, ',');
    var ids: seq<string> := [];
    var i := 0;
    while i < |parts|
      invariant 0 <= i <= |parts|
      invariant Collect(Same, validUUID, parts[..i]) == Ok(ids)
    {
      CollectNext(Same, validUUID, parts, i, ids);
      SameChars(parts[i]);
      var part := TrimSpace(parts[i]);
      if part != "" {
        if !validUUID(part) {
          CollectFails(Same, validUUID, parts, i + 1);
          return Err(Invalid(part));
        }
        ids := ids + [part];
      }
      i := i + 1;
    }
    assert parts[..i] == parts;
    return if ids == [] then Err(Empty) else Ok(ids);
  }

  /** `upper` is the case mapping of `strings.ToUpper`. */
  method ParseSeverityList(upper: char -> char, raw: string) returns (r: Result<seq<string>, ParseError>)
    ensures r == ParseList(upper, IsValidSeverity, raw)
  {
    var parts := Split(raw, ',');
    var severities: seq<string> := [];
    var i := 0;
    while i < |parts|
      invariant 0 <= i <= |parts|
      invariant Collect(upper, IsValidSeverity, parts[..i]) == Ok(severities)
    {
      CollectNext(upper, IsValidSeverity, parts, i, severities);
      var part := TrimSpace(MapChars(upper, parts[i]));
      if part != "" {
        if !IsValidSeverity(part) {
          CollectFails(upper, IsValidSeverity, parts, i + 1);
          return Err(Invalid(part));
        }
        severities := severities + [part];
      }
      i := i + 1;
    }
    assert parts[..i] == parts;
    return if severities == [] then Err(Empty) else Ok(severities);
  }

  lemma CollectExtends(upper: char -> char, valid: string -> bool, parts: seq<string>, i: nat)
    requires i < |parts|
    ensures parts[..i + 1][..|parts[..i + 1]| - 1] == parts[..i]
    ensures parts[..i + 1][|parts[..i + 1]| - 1] == parts[i]
  {
  }

  /** What one more part adds to what has been accepted so far. */
  lemma CollectNext(upper: char -> char, valid: string -> bool, parts: seq<string>, i: nat, xs: seq<string>)
    requires i < |parts| && Collect(upper, valid, parts[..i]) == Ok(xs)
    ensures var part := Normal(upper, parts[i]);
            Collect(upper, valid, parts[..i + 1]) ==
            if part == "" then Ok(xs) else if valid(part) then Ok(xs + [part]) else Err(Invalid(part))
  {
    CollectExtends(upper, valid, parts, i);
  }

  /** A failure stays the answer whatever follows. */
  lemma {:induction false} CollectFails(upper: char -> char, valid: string -> bool, parts: seq<string>, i: nat)
    requires i <= |parts| && Collect(upper, valid, parts[..i]).Err?
    ensures Collect(upper, valid, parts) == Collect(upper, valid, parts[..i])
    decreases |parts| - i
  {
    if i < |parts| {
      CollectExtends(upper, valid, parts, i);
      CollectFails(upper, valid, parts, i + 1);
    } else {
      assert parts[..i] == parts;
    }
  }

  lemma {:induction false} SameChars(s: string)
    ensures MapChars(Same, s) == s
  {
    if s != "" { SameChars(s[1..]); }
  }

  /** A part that parsing its own text gives back. */
  ghost predicate Stable(upper: char -> char, valid: string -> bool, x: string) {
    x != "" && valid(x) && ',' !in x && Normal(upper, x) == x
  }

  ghost predicate AllStable(upper: char -> char, valid: string -> bool, xs: seq<string>) {
    forall k {:trigger Stable(upper, valid, xs[k])} :: 0 <= k < |xs| ==> Stable(upper, valid, xs[k])
  }

  lemma {:induction false} CollectStable(upper: char -> char, valid: string -> bool, xs: seq<string>)
    requires AllStable(upper, valid, xs)
    ensures Collect(upper, valid, xs) == Ok(xs)
  {
    if xs != [] {
      var before, last := xs[..|xs| - 1], xs[|xs| - 1];
      assert Stable(upper, valid, last);
      assert AllStable(upper, valid, before) by {
        forall k | 0 <= k < |before| ensures Stable(upper, valid, before[k]) { assert Stable(upper, valid, xs[k]); }
      }
      CollectStable(upper, valid, before);
      CollectAccepts(upper, valid, before, last, before);
      assert xs == before + [last];
    }
  }

  lemma CollectAccepts(upper: char -> char, valid: string -> bool, before: seq<string>, x: string, xs: seq<string>)
    requires Collect(upper, valid, before) == Ok(xs) && Stable(upper, valid, x)
    ensures Collect(upper, valid, before + [x]) == Ok(xs + [x])
  {
    assert (before + [x])[..|before + [x]| - 1] == before;
  }

  /** Parsing undoes joining such parts. */
  lemma JoinedParsesBack(upper: char -> char, valid: string -> bool, xs: seq<string>)
    requires |xs| > 0 && AllStable(upper, valid, xs)
    ensures ParseList(upper, valid, Join(xs, ',')) == Ok(xs)
  {
    forall k | 0 <= k < |xs| ensures ',' !in xs[k] { assert Stable(upper, valid, xs[k]); }
    SplitJoin(xs, ',');
    CollectStable(upper, valid, xs);
  }

  lemma {:induction false} CollectedFrom(upper: char -> char, valid: string -> bool, parts: seq<string>, k: nat)
    returns (i: nat)
    requires Collect(upper, valid, parts).Ok? && k < |Collect(upper, valid, parts).value|
    ensures i < |parts|
    ensures var x := Collect(upper, valid, parts).value[k];
            x == Normal(upper, parts[i]) && x != "" && valid(x)
  {
    var before := Collect(upper, valid, parts[..|parts| - 1]);
    if k < |before.value| {
      i := CollectedFrom(upper, valid, parts[..|parts| - 1], k);
    } else {
      i := |parts| - 1;
    }
  }

  /** For any accepted list of UUIDs, joining what was parsed and parsing again gives the same UUIDs. */
  lemma UUIDListRoundTrip(validUUID: string -> bool, raw: string)
    requires ParseList(Same, validUUID, raw).Ok?
    ensures var ids := ParseList(Same, validUUID, raw).value;
            |ids| > 0 && ParseList(Same, validUUID, Join(ids, ',')) == Ok(ids)
  {
    var parts, ids := Split(raw, ','), ParseList(Same, validUUID, raw).value;
    forall k | 0 <= k < |ids|
      ensures Stable(Same, validUUID, ids[k])
    {
      var i := CollectedFrom(Same, validUUID, parts, k);
      JoinSplit(raw, ',');
      SameChars(parts[i]);
      SameChars(ids[k]);
      TrimSpaceTrims(parts[i]);
      TrimSpaceTrims(ids[k]);
    }
    JoinedParsesBack(Same, validUUID, ids);
  }

  lemma {:induction false} FixedChars(upper: char -> char, s: string)
    requires forall c :: c in s ==> upper(c) == c
    ensures MapChars(upper, s) == s
  {
    if s != "" { FixedChars(upper, s[1..]); }
  }

  lemma SeverityLetters(s: string)
    requires IsValidSeverity(s)
    ensures forall c :: c in s ==> 'A' <= c <= 'Z'
  {
    SeverityNames(s);
  }

  lemma LettersTrimmed(s: string)
    requires forall c :: c in s ==> 'A' <= c <= 'Z'
    ensures Trimmed(s) && ',' !in s
  {
    if s != [] { assert s[0] in s && s[|s| - 1] in s; }
  }

  /** The same for severities, for any case mapping that leaves capital letters alone. */
  lemma SeverityListRoundTrip(upper: char -> char, raw: string)
    requires forall c :: 'A' <= c <= 'Z' ==> upper(c) == c
    requires ParseList(upper, IsValidSeverity, raw).Ok?
    ensures var severities := ParseList(upper, IsValidSeverity, raw).value;
            |severities| > 0 && ParseList(upper, IsValidSeverity, Join(severities, ',')) == Ok(severities)
  {
    var severities := ParseList(upper, IsValidSeverity, raw).value;
    forall k | 0 <= k < |severities|
      ensures Stable(upper, IsValidSeverity, severities[k])
    {
      var x := severities[k];
      var i := CollectedFrom(upper, IsValidSeverity, Split(raw, ','), k);
      SeverityLetters(x);
      FixedChars(upper, x);
      LettersTrimmed(x);
      TrimSpaceTrims(x);
    }
    JoinedParsesBack(upper, IsValidSeverity, severities);
  }
}
