/** Split-include domain suffixes: normalising, merging, dropping suffixes another suffix
    already covers, and subtracting bypassed domains.

    `Chars` stands for Unicode: a per-character lower-casing and a notion of white space. */
module Domains {

  datatype Chars = Chars(lower: char -> char, space: char -> bool)

  ghost predicate Sane(u: Chars) { forall c :: u.lower(u.lower(c)) == u.lower(c) }

  function ToLower(u: Chars, s: string): string { seq(|s|, i requires 0 <= i < |s| => u.lower(s[i])) }

  function TrimLeft(drop: char -> bool, s: string): string {
    if s != [] && drop(s[0]) then TrimLeft(drop, s[1..]) else s
  }

  function TrimRight(drop: char -> bool, s: string): string {
    if s != [] && drop(s[|s| - 1]) then TrimRight(drop, s[..|s| - 1]) else s
  }

  function TrimSpace(u: Chars, s: string): string { TrimRight(u.space, TrimLeft(u.space, s)) }

  function TrimDots(s: string): string { TrimLeft(c => c == '.', s) }

  function Normal(u: Chars, s: string): string { TrimDots(TrimSpace(u, ToLower(u, s))) }

  predicate HasSuffix(s: string, suffix: string) { |suffix| <= |s| && s[|s| - |suffix|..] == suffix }

  // `domain` is `suffix` or a subdomain of it.
  predicate Covers(suffix: string, domain: string) { domain == suffix || HasSuffix(domain, "." + suffix) }

  ghost predicate CoveredBy(host: string, suffixes: seq<string>) {
    exists c :: c in suffixes && c != "" && Covers(c, host)
  }

  // ---------------------------------------------------------------- collapse

  // Another suffix of the list already covers `value`.
  ghost predicate Redundant(values: seq<string>, value: string) {
    exists c :: c in values && c != "" && c != value && Covers(c, value)
  }

  ghost predicate Stays(values: seq<string>, value: string) { value != "" && !Redundant(values, value) }

  ghost function Keep(values: seq<string>, from: seq<string>): seq<string> {
    if from == [] then []
    else (if Stays(values, from[0]) then [from[0]] else []) + Keep(values, from[1..])
  }

  ghost function Collapse(values: seq<string>): seq<string> { Keep(values, values) }

  lemma {:induction false} KeepMembers(values: seq<string>, from: seq<string>, v: string)
    ensures v in Keep(values, from) <==> v in from && Stays(values, v)
  {
    if from != [] {
      KeepMembers(values, from[1..], v);
      assert v in from <==> v == from[0] || v in from[1..];
    }
  }

  // The inner loop: is some other entry a proper suffix of entry `i`?
  method IsRedundant(values: seq<string>, i: nat) returns (covered: bool)
    requires i < |values|
    ensures covered <==> Redundant(values, values[i])
  {
    var value := values[i];
    for j := 0 to |values|
      invariant forall k :: 0 <= k < j ==> !(values[k] != "" && values[k] != value && Covers(values[k], value))
    {
      var candidate := values[j];
      if i == j || candidate == "" {
        continue;
      }
      if value == candidate {
        continue;
      }
      if value == candidate || HasSuffix(value, "." + candidate) {
        assert candidate in values;
        return true;
      }
    }
    return false;
  }

  method CollapseCoveredDomainSuffixes(values: seq<string>) returns (filtered: seq<string>)
    ensures filtered == Collapse(values)
  {
    filtered := [];
    for i := 0 to |values|
      invariant filtered == Keep(values, values[..i])
    {
      assert values[..i + 1] == values[..i] + [values[i]];
      KeepSnoc(values, values[..i], values[i]);
      if values[i] == "" {
        continue;
      }
      var covered := IsRedundant(values, i);
      if covered {
        continue;
      }
      filtered := filtered + [values[i]];
    }
    assert values[..|values|] == values;
  }

  lemma {:induction false} KeepSnoc(values: seq<string>, from: seq<string>, last: string)
    ensures Keep(values, from + [last]) == Keep(values, from) + if Stays(values, last) then [last] else []
  {
    if from != [] {
      assert (from + [last])[1..] == from[1..] + [last];
      KeepSnoc(values, from[1..], last);
    } else {
      assert from + [last] == [last];
    }
  }

  lemma CoversTransitive(a: string, b: string, c: string)
    requires Covers(a, b) && Covers(b, c)
    ensures Covers(a, c)
  {
  }

  // Going from a suffix to a shorter one that covers it ends at one that is kept.
  lemma {:induction false} KeptSuffixCovers(values: seq<string>, value: string) returns (kept: string)
    requires value in values && value != ""
    ensures kept in Collapse(values) && Covers(kept, value)
    decreases |value|
  {
    if Redundant(values, value) {
      var c :| c in values && c != "" && c != value && Covers(c, value);
      assert |c| < |value|;
      kept := KeptSuffixCovers(values, c);
      CoversTransitive(kept, c, value);
    } else {
      kept := value;
      KeepMembers(values, values, value);
    }
  }

  /** Collapsing changes no verdict: a host is covered after it exactly when it was before. */
  lemma CollapsePreservesCoverage(values: seq<string>, host: string)
    ensures CoveredBy(host, Collapse(values)) <==> CoveredBy(host, values)
  {
    forall v ensures v in Collapse(values) ==> v in values && v != "" { KeepMembers(values, values, v); }
    if CoveredBy(host, values) {
      var c :| c in values && c != "" && Covers(c, host);
      var kept := KeptSuffixCovers(values, c);
      CoversTransitive(kept, c, host);
    }
  }

  /** No kept suffix covers a different kept suffix. */
  lemma CollapseIsAnAntichain(values: seq<string>, a: string, b: string)
    requires a in Collapse(values) && b in Collapse(values) && a != b
    ensures !Covers(a, b)
  {
    KeepMembers(values, values, a);
    KeepMembers(values, values, b);
  }

  lemma {:induction false} KeepAll(values: seq<string>, from: seq<string>)
    requires forall v :: v in from ==> Stays(values, v)
    ensures Keep(values, from) == from
  {
    if from != [] {
      assert from[0] in from && forall v :: v in from[1..] ==> v in from;
      KeepAll(values, from[1..]);
    }
  }

  lemma RedundantInFewer(fewer: seq<string>, values: seq<string>, v: string)
    requires forall c :: c in fewer ==> c in values
    ensures Redundant(fewer, v) ==> Redundant(values, v)
  {
  }

  /** Collapsing twice is collapsing once. */
  lemma CollapseIdempotent(values: seq<string>)
    ensures Collapse(Collapse(values)) == Collapse(values)
  {
    var once := Collapse(values);
    forall v ensures v in once ==> v in values && Stays(values, v) { KeepMembers(values, values, v); }
    forall v | v in once ensures Stays(once, v) {
      RedundantInFewer(once, values, v);
    }
    KeepAll(once, once);
  }

  // `r` is `s` with some elements left out.
  ghost predicate Subsequence(r: seq<string>, s: seq<string>) {
    r == [] || (s != [] && ((r[0] == s[0] && Subsequence(r[1..], s[1..])) || Subsequence(r, s[1..])))
  }

  lemma {:induction false} KeepPreservesOrder(values: seq<string>, from: seq<string>)
    ensures Subsequence(Keep(values, from), from)
  {
    if from != [] {
      KeepPreservesOrder(values, from[1..]);
      var kept, rest := Keep(values, from), Keep(values, from[1..]);
      if Stays(values, from[0]) {
        assert kept == [from[0]] + rest && kept[1..] == rest;
      } else {
        assert kept == rest;
      }
    }
  }

  lemma CollapsePreservesOrder(values: seq<string>)
    ensures Subsequence(Collapse(values), values)
  {
    KeepPreservesOrder(values, values);
  }

  // ---------------------------------------------------------------- merge

  ghost predicate Listed(u: Chars, result: seq<string>, key: string) {
    exists i :: 0 <= i < |result| && ToLower(u, result[i]) == key
  }

  function Key(u: Chars, value: string): string { ToLower(u, TrimSpace(u, value)) }

  // Value `k` is the first that is not blank and has its key; `x` is its trimmed spelling.
  ghost predicate FirstSpelled(u: Chars, values: seq<string>, k: nat, x: string) {
    && k < |values| && TrimSpace(u, values[k]) == x && x != ""
    && forall j :: 0 <= j < k ==> TrimSpace(u, values[j]) == "" || Key(u, values[j]) != Key(u, values[k])
  }

  // What merging leaves: for every key its first spelling, in the order of first appearance,
  // and every value that is not blank represented.  `at` tells where each one first stood.
  ghost predicate Merged(u: Chars, values: seq<string>, result: seq<string>, at: seq<nat>) {
    && |at| == |result| && (forall i :: 0 <= i < |result| ==> FirstSpelled(u, values, at[i], result[i]))
    && (forall i, j :: 0 <= i < j < |at| ==> at[i] < at[j])
    && (forall v :: v in values && TrimSpace(u, v) != "" ==> Listed(u, result, Key(u, v)))
  }

  ghost predicate MergeOf(u: Chars, values: seq<string>, result: seq<string>) {
    exists at :: Merged(u, values, result, at)
  }

  /** No two merged values agree ignoring case. */
  lemma MergedKeysDistinct(u: Chars, values: seq<string>, result: seq<string>, i: nat, j: nat)
    requires MergeOf(u, values, result) && i < j < |result|
    ensures ToLower(u, result[i]) != ToLower(u, result[j])
  {
    var at :| Merged(u, values, result, at);
    assert FirstSpelled(u, values, at[i], result[i]) && FirstSpelled(u, values, at[j], result[j]);
  }

  method AppendUnique(u: Chars, values: seq<string>, result0: seq<string>, seen0: set<string>, ghost before: seq<string>, ghost at0: seq<nat>)
    returns (result: seq<string>, seen: set<string>, ghost at: seq<nat>)
    requires Merged(u, before, result0, at0) && forall k :: k in seen0 <==> Listed(u, result0, k)
    ensures Merged(u, before + values, result, at) && (forall k :: k in seen <==> Listed(u, result, k))
  {
    result, seen, at := result0, seen0, at0;
    assert before + values[..0] == before;
    for i := 0 to |values|
      invariant Merged(u, before + values[..i], result, at)
      invariant forall k :: k in seen <==> Listed(u, result, k)
    {
      var value := TrimSpace(u, values[i]);
      ghost var done := before + values[..i];
      assert before + values[..i + 1] == done + [values[i]];
      MergedOneMore(u, done, values[i], result, at);
      if value == "" {
        continue;
      }
      var key := ToLower(u, value);
      if key in seen {
        continue;
      }
      SeenGrows(u, seen, result, value);
      seen := seen + {key};
      result, at := result + [value], at + [|done|];
    }
    assert values[..|values|] == values;
  }

  lemma ListedGrows(u: Chars, result: seq<string>, value: string, key: string)
    ensures Listed(u, result + [value], key) <==> Listed(u, result, key) || ToLower(u, value) == key
  {
    var longer := result + [value];
    if Listed(u, result, key) {
      var i :| 0 <= i < |result| && ToLower(u, result[i]) == key;
      assert longer[i] == result[i];
    }
    if ToLower(u, value) == key {
      assert longer[|result|] == value;
    }
  }

  lemma SeenGrows(u: Chars, seen: set<string>, result: seq<string>, value: string)
    requires forall k :: k in seen <==> Listed(u, result, k)
    ensures forall k :: k in seen + {ToLower(u, value)} <==> Listed(u, result + [value], k)
  {
    forall k ensures k in seen + {ToLower(u, value)} <==> Listed(u, result + [value], k) {
      ListedGrows(u, result, value, k);
    }
  }

  lemma MergedOneMore(u: Chars, values: seq<string>, value: string, result: seq<string>, at: seq<nat>)
    requires Merged(u, values, result, at)
    ensures var x := TrimSpace(u, value);
            if x == "" || Listed(u, result, Key(u, value)) then Merged(u, values + [value], result, at)
            else Merged(u, values + [value], result + [x], at + [|values|])
  {
    forall i | 0 <= i < |result| ensures FirstSpelled(u, values + [value], at[i], result[i]) {
      assert FirstSpelled(u, values, at[i], result[i]);
    }
    if TrimSpace(u, value) != "" && !Listed(u, result, Key(u, value)) {
      MergedGrows(u, values, value, result, at);
    }
  }

  lemma MergedGrows(u: Chars, values: seq<string>, value: string, result: seq<string>, at: seq<nat>)
    requires Merged(u, values, result, at) && TrimSpace(u, value) != "" && !Listed(u, result, Key(u, value))
    requires forall i :: 0 <= i < |result| ==> FirstSpelled(u, values + [value], at[i], result[i])
    ensures Merged(u, values + [value], result + [TrimSpace(u, value)], at + [|values|])
  {
    var x, more := TrimSpace(u, value), values + [value];
    assert FirstSpelled(u, more, |values|, x);
    forall v | v in more && TrimSpace(u, v) != "" ensures Listed(u, result + [x], Key(u, v)) {
      ListedGrows(u, result, x, Key(u, v));
    }
  }

  /** Trimmed, one value per key ignoring case, first spellings first, none lost. */
  method MergeNormalizedList(u: Chars, base: seq<string>, extra: seq<string>) returns (result: seq<string>)
    ensures MergeOf(u, base + extra, result)
  {
    var seen: set<string> := {};
    ghost var at: seq<nat>;
    assert [] + base == base;
    result, seen, at := AppendUnique(u, base, [], {}, [], []);
    result, seen, at := AppendUnique(u, extra, result, seen, base, at);
  }

  // ---------------------------------------------------------------- the whole normaliser

  // Left alone by lower-casing.
  predicate IsLower(u: Chars, s: string) { forall i :: 0 <= i < |s| ==> u.lower(s[i]) == s[i] }

  lemma {:induction false} TrimLeftIsASuffix(drop: char -> bool, s: string)
    ensures |TrimLeft(drop, s)| <= |s| && TrimLeft(drop, s) == s[|s| - |TrimLeft(drop, s)|..]
  {
    if s != [] && drop(s[0]) {
      TrimLeftIsASuffix(drop, s[1..]);
    }
  }

  lemma {:induction false} TrimRightIsAPrefix(drop: char -> bool, s: string)
    ensures |TrimRight(drop, s)| <= |s| && TrimRight(drop, s) == s[..|TrimRight(drop, s)|]
  {
    if s != [] && drop(s[|s| - 1]) {
      TrimRightIsAPrefix(drop, s[..|s| - 1]);
    }
  }

  lemma TrimKeepsLower(u: Chars, s: string)
    requires IsLower(u, s)
    ensures IsLower(u, TrimSpace(u, s)) && IsLower(u, TrimDots(s))
  {
    TrimLeftIsASuffix(u.space, s);
    TrimRightIsAPrefix(u.space, TrimLeft(u.space, s));
    TrimLeftIsASuffix(c => c == '.', s);
  }

  lemma NormalIsLower(u: Chars, s: string)
    requires Sane(u)
    ensures IsLower(u, Normal(u, s))
  {
    TrimKeepsLower(u, ToLower(u, s));
    TrimKeepsLower(u, TrimSpace(u, ToLower(u, s)));
  }

  lemma LowerOfLower(u: Chars, s: string)
    requires IsLower(u, s)
    ensures ToLower(u, s) == s
  {
  }

  ghost predicate TrimmedCovers(u: Chars, values: seq<string>, host: string) {
    exists v :: v in values && TrimSpace(u, v) != "" && Covers(TrimSpace(u, v), host)
  }

  // Merging lower-case values loses none of them: equal keys are equal values.
  lemma MergeKeepsCoverage(u: Chars, values: seq<string>, result: seq<string>, at: seq<nat>, host: string)
    requires Merged(u, values, result, at) && forall v :: v in values ==> IsLower(u, v)
    ensures CoveredBy(host, result) <==> TrimmedCovers(u, values, host)
  {
    forall v | v in values ensures Key(u, v) == TrimSpace(u, v) {
      TrimKeepsLower(u, v);
      LowerOfLower(u, TrimSpace(u, v));
    }
    forall i | 0 <= i < |result| ensures values[at[i]] in values && TrimSpace(u, values[at[i]]) == result[i] {
      assert FirstSpelled(u, values, at[i], result[i]);
    }
    if CoveredBy(host, result) {
      var c :| c in result && c != "" && Covers(c, host);
      var i :| 0 <= i < |result| && result[i] == c;
      assert TrimSpace(u, values[at[i]]) == c;
    }
    if v :| v in values && TrimSpace(u, v) != "" && Covers(TrimSpace(u, v), host) {
      var i :| 0 <= i < |result| && ToLower(u, result[i]) == Key(u, v);
      assert Key(u, values[at[i]]) == TrimSpace(u, values[at[i]]);
      assert result[i] == TrimSpace(u, v);
    }
  }

  // What a suffix of the configuration finally stands for.
  function Meaning(u: Chars, value: string): string { TrimSpace(u, Normal(u, value)) }

  ghost predicate MeaningCovers(u: Chars, values: seq<string>, host: string) {
    exists v :: v in values && Meaning(u, v) != "" && Covers(Meaning(u, v), host)
  }

  // Every value normalised, blanks dropped, order kept.
  function Normals(u: Chars, values: seq<string>): seq<string> {
    if values == [] then []
    else
      var rest, last := Normals(u, values[..|values| - 1]), Normal(u, values[|values| - 1]);
      if last == "" then rest else rest + [last]
  }

  lemma NormalsSnoc(u: Chars, values: seq<string>, value: string)
    ensures Normals(u, values + [value]) == if Normal(u, value) == "" then Normals(u, values) else Normals(u, values) + [Normal(u, value)]
  {
  }

  lemma {:induction false} NormalsMembers(u: Chars, values: seq<string>)
    ensures forall n :: n in Normals(u, values) <==> n != "" && exists v :: v in values && Normal(u, v) == n
    decreases |values|
  {
    if values != [] {
      var front, last := values[..|values| - 1], values[|values| - 1];
      assert values == front + [last];
      NormalsMembers(u, front);
      NormalsSnoc(u, front, last);
    }
  }

  /** For every list of suffixes: the result covers a host exactly when some configured
      suffix, normalised, covers it; no suffix in it is redundant; and it is the collapse of
      the merged normal forms, in the order of their first appearance. */
  method NormalizeDomainSuffixList(u: Chars, values: seq<string>) returns (result: seq<string>)
    requires Sane(u)
    ensures exists merged :: MergeOf(u, Normals(u, values), merged) && result == Collapse(merged)
    ensures forall host :: CoveredBy(host, result) <==> MeaningCovers(u, values, host)
    ensures forall a, b :: a in result && b in result && a != b ==> !Covers(a, b)
  {
    var normalized := NormalizeAll(u, values);
    var merged := MergeNormalizedList(u, normalized, []);
    assert normalized + [] == normalized;
    result := CollapseCoveredDomainSuffixes(merged);
    forall host ensures CoveredBy(host, result) <==> MeaningCovers(u, values, host) {
      CollapsePreservesCoverage(merged, host);
      NormalizedCoverage(u, values, merged, host);
    }
    forall a, b | a in result && b in result && a != b ensures !Covers(a, b) {
      CollapseIsAnAntichain(merged, a, b);
    }
  }

  method NormalizeAll(u: Chars, values: seq<string>) returns (normalized: seq<string>)
    ensures normalized == Normals(u, values)
  {
    normalized := [];
    for i := 0 to |values|
      invariant normalized == Normals(u, values[..i])
    {
      var value := Normal(u, values[i]);
      assert values[..i + 1] == values[..i] + [values[i]];
      NormalsSnoc(u, values[..i], values[i]);
      if value == "" {
        continue;
      }
      normalized := normalized + [value];
    }
    assert values[..|values|] == values;
  }

  lemma NormalizedCoverage(u: Chars, values: seq<string>, merged: seq<string>, host: string)
    requires Sane(u) && MergeOf(u, Normals(u, values), merged)
    ensures CoveredBy(host, merged) <==> MeaningCovers(u, values, host)
  {
    var normalized := Normals(u, values);
    NormalsMembers(u, values);
    forall n | n in normalized ensures IsLower(u, n) {
      var v :| v in values && Normal(u, v) == n;
      NormalIsLower(u, v);
    }
    var at :| Merged(u, normalized, merged, at);
    MergeKeepsCoverage(u, normalized, merged, at, host);
    TrimmedIsMeaning(u, values, normalized, host);
  }

  lemma TrimmedIsMeaning(u: Chars, values: seq<string>, normalized: seq<string>, host: string)
    requires forall n :: n in normalized <==> n != "" && exists v :: v in values && Normal(u, v) == n
    ensures TrimmedCovers(u, normalized, host) <==> MeaningCovers(u, values, host)
  {
  }

  // ---------------------------------------------------------------- bypass

  // domainCoveredByBypass
  ghost predicate Bypassed(u: Chars, domain: string, bypass: seq<string>) {
    Normal(u, domain) != "" && exists b :: b in bypass && Normal(u, b) != "" && Covers(Normal(u, b), Normal(u, domain))
  }

  method DomainCoveredByBypass(u: Chars, domain: string, bypass: seq<string>) returns (covered: bool)
    ensures covered <==> Bypassed(u, domain, bypass)
  {
    var d := Normal(u, domain);
    if d == "" {
      return false;
    }
    for i := 0 to |bypass|
      invariant forall j :: 0 <= j < i ==> !(Normal(u, bypass[j]) != "" && Covers(Normal(u, bypass[j]), d))
    {
      var b := Normal(u, bypass[i]);
      if b == "" {
        continue;
      }
      if d == b || HasSuffix(d, "." + b) {
        assert bypass[i] in bypass;
        return true;
      }
    }
    return false;
  }

  ghost function NotBypassed(u: Chars, domains: seq<string>, bypass: seq<string>): seq<string> {
    if domains == [] then []
    else (if Bypassed(u, domains[0], bypass) then [] else [domains[0]]) + NotBypassed(u, domains[1..], bypass)
  }

  /** Exactly the domains no bypass suffix covers stay, in order and with multiplicity. */
  method SubtractBypassCoveredDomains(u: Chars, domains: seq<string>, bypass: seq<string>) returns (filtered: seq<string>)
    ensures filtered == NotBypassed(u, domains, bypass)
    ensures forall d :: d in filtered <==> d in domains && !Bypassed(u, d, bypass)
  {
    MembersNotBypassed(u, domains, bypass);
    if |bypass| == 0 {
      NothingBypassed(u, domains, bypass);
      return domains;
    }
    filtered := FilterDomains(u, domains, bypass);
  }

  method FilterDomains(u: Chars, domains: seq<string>, bypass: seq<string>) returns (filtered: seq<string>)
    ensures filtered == NotBypassed(u, domains, bypass)
  {
    filtered := [];
    for i := 0 to |domains|
      invariant filtered == NotBypassed(u, domains[..i], bypass)
    {
      assert domains[..i + 1] == domains[..i] + [domains[i]];
      NotBypassedSnoc(u, domains[..i], domains[i], bypass);
      var covered := DomainCoveredByBypass(u, domains[i], bypass);
      if covered {
        continue;
      }
      filtered := filtered + [domains[i]];
    }
    assert domains[..|domains|] == domains;
  }

  lemma {:induction false} NotBypassedSnoc(u: Chars, domains: seq<string>, last: string, bypass: seq<string>)
    ensures NotBypassed(u, domains + [last], bypass)
            == NotBypassed(u, domains, bypass) + if Bypassed(u, last, bypass) then [] else [last]
  {
    if domains != [] {
      assert (domains + [last])[1..] == domains[1..] + [last];
      NotBypassedSnoc(u, domains[1..], last, bypass);
    } else {
      assert domains + [last] == [last];
    }
  }

  lemma {:induction false} NothingBypassed(u: Chars, domains: seq<string>, bypass: seq<string>)
    requires bypass == []
    ensures NotBypassed(u, domains, bypass) == domains
  {
    if domains != [] {
      NothingBypassed(u, domains[1..], bypass);
    }
  }

  lemma {:induction false} MembersNotBypassed(u: Chars, domains: seq<string>, bypass: seq<string>)
    ensures forall d :: d in NotBypassed(u, domains, bypass) <==> d in domains && !Bypassed(u, d, bypass)
  {
    if domains != [] {
      MembersNotBypassed(u, domains[1..], bypass);
    }
  }
}
