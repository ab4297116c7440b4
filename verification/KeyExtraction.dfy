/** API-key extraction from chat text and provider detection (crates/orion-birth/src/chat.rs).

    The scan slices one character past a bare prefix, so a text that ends right after a prefix is out of
    range and the code panics; that outcome is `None` here. */
module KeyExtraction {
  import opened Text
  import opened Redaction

  datatype FoundKey = FoundKey(provider: string, key: string)

  datatype Extractor = Extractor(prefix: string, provider: string)

  const EXTRACTORS: seq<Extractor> := [
    Extractor("sk-ant-", "anthropic"), Extractor("sk-", "openai"), Extractor("pplx-", "perplexity"),
    Extractor("xai-", "xai"), Extractor("AIza", "google"), Extractor("tvly-", "tavily")]

  // ---- Reference definition: one maximal run at a time ----

  /** The key a prefix finds in one maximal run: everything from its first occurrence on, if long enough. */
  function RunKey(p: string, run: string): seq<string> {
    match Find(run, p)
    case Some(pos) => if |run| - pos - |p| >= MIN_KEY_CHARS then [run[pos..]] else []
    case None => []
  }

  function KeysByRuns(p: string, s: string): seq<string>
    decreases |s|
  {
    if s == "" then []
    else if KeyChar(s[0]) then RunKey(p, s[..KeysFrom(s, 0)]) + KeysByRuns(p, s[KeysFrom(s, 0)..])
    else KeysByRuns(p, s[1..])
  }

  /** The run of key characters the text ends in. */
  function TrailingRun(s: string): string {
    if s == "" || !KeyChar(s[|s| - 1]) then "" else TrailingRun(s[..|s| - 1]) + [s[|s| - 1]]
  }

  /** The text ends in `p`, and its trailing run holds `p` nowhere before that. */
  predicate EndsInBarePrefix(p: string, s: string) {
    |p| <= |TrailingRun(s)| && Find(TrailingRun(s), p) == Some(|TrailingRun(s)| - |p|)
  }

  predicate Comparable(a: string, b: string) {
    a <= b || b <= a
  }

  predicate Captured(results: seq<FoundKey>, key: string) {
    exists i :: 0 <= i < |results| && Comparable(results[i].key, key)
  }

  /** Keys are taken in order, each unless it is comparable with one taken before. */
  function Admit(results: seq<FoundKey>, provider: string, keys: seq<string>): seq<FoundKey>
    decreases |keys|
  {
    if keys == [] then results
    else if Captured(results, keys[0]) then Admit(results, provider, keys[1..])
    else Admit(results + [FoundKey(provider, keys[0])], provider, keys[1..])
  }

  /** What the first `n` prefixes of the table find. */
  function ExtractUpTo(n: nat, text: string): seq<FoundKey>
    requires n <= |EXTRACTORS|
  {
    if n == 0 then []
    else Admit(ExtractUpTo(n - 1, text), EXTRACTORS[n - 1].provider, KeysByRuns(EXTRACTORS[n - 1].prefix, text))
  }

  // ---- The code ----

  method ExtractForPrefix(text: string, e: Extractor, found: seq<FoundKey>) returns (r: Option<seq<FoundKey>>)
    requires PrefixLike(e.prefix)
    ensures r.None? <==> EndsInBarePrefix(e.prefix, text)
    ensures r.Some? ==> r.value == Admit(found, e.provider, KeysByRuns(e.prefix, text))
  {
    var prefix := e.prefix;
    var results := found;
    var remaining := text;
    var hit := Find(remaining, prefix);
    while hit.Some?
      invariant hit == Find(remaining, prefix)
      invariant EndsInBarePrefix(prefix, remaining) == EndsInBarePrefix(prefix, text)
      invariant Admit(results, e.provider, KeysByRuns(prefix, remaining))
             == Admit(found, e.provider, KeysByRuns(prefix, text))
      decreases |remaining|
    {
      var pos := hit.value;
      var afterPrefix := remaining[pos + |prefix|..];
      var keyChars := KeysFrom(afterPrefix, 0);
      SplitAtHit(remaining, prefix, pos);
      ExtractStep(prefix, remaining, remaining[..pos], afterPrefix);
      AdmitStep(prefix, remaining, afterPrefix, results, e.provider);
      if keyChars >= MIN_KEY_CHARS {
        var fullKey := prefix + afterPrefix[..keyChars];
        if !Captured(results, fullKey) {
          results := results + [FoundKey(e.provider, fullKey)];
        }
      }
      var skip := if keyChars >= 1 then keyChars else 1;
      if skip > |afterPrefix| {
        return None;
      }
      remaining := afterPrefix[skip..];
      hit := Find(remaining, prefix);
    }
    ExtractDone(prefix, remaining);
    return Some(results);
  }

  /** `None` is the out-of-range slice. */
  method ExtractApiKeys(text: string) returns (r: Option<seq<FoundKey>>)
    ensures r.None? <==> exists e :: e in EXTRACTORS && EndsInBarePrefix(e.prefix, text)
    ensures r.Some? ==> r.value == ExtractUpTo(|EXTRACTORS|, text)
  {
    var results: seq<FoundKey> := [];
    var i := 0;
    while i < |EXTRACTORS|
      invariant i <= |EXTRACTORS|
      invariant results == ExtractUpTo(i, text)
      invariant forall j :: 0 <= j < i ==> !EndsInBarePrefix(EXTRACTORS[j].prefix, text)
    {
      TablesAgree();
      var step := ExtractForPrefix(text, EXTRACTORS[i], results);
      if step.None? {
        assert EXTRACTORS[i] in EXTRACTORS;
        return None;
      }
      results := step.value;
      i := i + 1;
    }
    return Some(results);
  }

  /** Provider of a single key, by its prefix. */
  function DetectProviderFromKey(key: string): Option<string> {
    var k := Trim(key);
    if StartsWith(k, "sk-ant-") then Some("anthropic")
    else if StartsWith(k, "sk-") then Some("openai")
    else if StartsWith(k, "pplx-") then Some("perplexity")
    else if StartsWith(k, "xai-") then Some("xai")
    else if StartsWith(k, "AIza") then Some("google")
    else if StartsWith(k, "tvly-") then Some("tavily")
    else None
  }

  // ---- The scan against the reference definition ----

  /** The extractor's prefixes are the redactor's. */
  lemma TablesAgree()
    ensures |EXTRACTORS| == |KEY_PREFIXES|
    ensures forall i :: 0 <= i < |EXTRACTORS| ==>
      EXTRACTORS[i].prefix == KEY_PREFIXES[i] && PrefixLike(EXTRACTORS[i].prefix)
    ensures forall i, j :: 0 <= i < j < |EXTRACTORS| ==> EXTRACTORS[i].provider != EXTRACTORS[j].provider
  {
  }

  lemma AdmitOne(results: seq<FoundKey>, provider: string, key: string, keys: seq<string>)
    ensures Admit(results, provider, [key] + keys)
         == Admit(if Captured(results, key) then results else results + [FoundKey(provider, key)], provider, keys)
  {
    assert ([key] + keys)[1..] == keys;
  }

  lemma KeysOnRun(p: string, run: string, rest: string)
    requires PrefixLike(p) && AllKey(run) && Stops(rest)
    ensures KeysByRuns(p, run + rest) == RunKey(p, run) + KeysByRuns(p, rest)
  {
    var s := run + rest;
    if run == "" {
      assert s == rest;
    } else {
      KeysInRun(run, rest, 0);
      assert s[..|run|] == run && s[|run|..] == rest && s[0] == run[0];
    }
  }

  lemma {:induction false} TrailingWhole(run: string)
    requires AllKey(run)
    ensures TrailingRun(run) == run
  {
    if run != "" {
      TrailingWhole(run[..|run| - 1]);
    }
  }

  lemma EmptyTrailing()
    ensures TrailingRun("") == ""
  {
  }

  lemma {:induction false} TrailingPast(u: string, rest: string)
    requires rest != "" && Stops(rest)
    ensures TrailingRun(u + rest) == TrailingRun(rest)
    decreases |rest|
  {
    var s := u + rest;
    assert s[|s| - 1] == rest[|rest| - 1];
    if KeyChar(rest[|rest| - 1]) {
      assert s[..|s| - 1] == u + rest[..|rest| - 1];
      TrailingPast(u, rest[..|rest| - 1]);
    }
  }

  lemma BareAfterRun(p: string, run: string, rest: string)
    requires AllKey(run) && Stops(rest)
    ensures rest != "" ==> EndsInBarePrefix(p, run + rest) == EndsInBarePrefix(p, rest)
    ensures rest == "" ==> EndsInBarePrefix(p, run + rest) == (|p| <= |run| && Find(run, p) == Some(|run| - |p|))
  {
    if rest == "" {
      assert run + rest == run;
      TrailingWhole(run);
    } else {
      TrailingPast(run, rest);
    }
  }

  lemma BareAfterNonKey(p: string, c: char, rest: string)
    requires PrefixLike(p) && !KeyChar(c)
    ensures EndsInBarePrefix(p, [c] + rest) == EndsInBarePrefix(p, rest)
  {
    NonKeyTrailing(c, rest);
  }

  lemma {:induction false} NonKeyTrailing(c: char, rest: string)
    requires !KeyChar(c)
    ensures TrailingRun([c] + rest) == TrailingRun(rest)
  {
    if rest != "" && KeyChar(rest[|rest| - 1]) {
      NonKeyTrailing(c, rest[..|rest| - 1]);
      assert ([c] + rest)[..|rest|] == [c] + rest[..|rest| - 1];
    }
  }

  /** One iteration of the scan: the keys of `s` are `first` and then those of `next`. */
  ghost predicate Continues(p: string, s: string, first: seq<string>, next: string) {
    EndsInBarePrefix(p, s) == EndsInBarePrefix(p, next) && KeysByRuns(p, s) == first + KeysByRuns(p, next)
  }

  /** The leftmost hit stands between `before` and `tail`: past the end if the prefix is bare, else the
      scan resumes behind the key characters, or one character on when there are none. */
  ghost predicate Stepped(p: string, s: string, tail: string) {
    var k := KeysFrom(tail, 0);
    if tail == "" then EndsInBarePrefix(p, s)
    else if k == 0 then Continues(p, s, [], tail[1..])
    else if k < MIN_KEY_CHARS then Continues(p, s, [], tail[k..])
    else Continues(p, s, [p + tail[..k]], tail[k..])
  }

  /** What an iteration adds to the results, and that the rest of the text accounts for what is missing. */
  lemma AdmitStep(p: string, s: string, tail: string, results: seq<FoundKey>, provider: string)
    requires Stepped(p, s, tail)
    ensures tail == "" ==> EndsInBarePrefix(p, s)
    ensures tail != "" ==>
      var k := KeysFrom(tail, 0);
      var next := tail[if k >= 1 then k else 1..];
      var more := if k >= MIN_KEY_CHARS && !Captured(results, p + tail[..k])
                  then results + [FoundKey(provider, p + tail[..k])] else results;
      EndsInBarePrefix(p, s) == EndsInBarePrefix(p, next)
      && Admit(results, provider, KeysByRuns(p, s)) == Admit(more, provider, KeysByRuns(p, next))
  {
    var k := KeysFrom(tail, 0);
    if k >= MIN_KEY_CHARS {
      AdmitOne(results, provider, p + tail[..k], KeysByRuns(p, tail[k..]));
    } else if tail != "" {
      var rest := KeysByRuns(p, tail[if k >= 1 then k else 1..]);
      assert [] + rest == rest;
    }
  }

  lemma {:induction false} ExtractStep(p: string, s: string, before: string, tail: string)
    requires PrefixLike(p) && s == before + (p + tail) && Find(s, p) == Some(|before|)
    ensures Stepped(p, s, tail)
    decreases |s|
  {
    hide Find, KeysByRuns, EndsInBarePrefix, Stepped;
    if KeyChar(s[0]) {
      var run, rest := SplitRun(s);
      FindByRun(p, run, rest);
      if Find(run, p).Some? {
        ExtractStepInRun(p, run, rest, before, tail);
      } else {
        ScanStepPast(p, run, rest, before, tail);
        ExtractStep(p, rest, before[|run|..], tail);
        KeysOnRun(p, run, rest);
        BareAfterRun(p, run, rest);
        SteppedAs(p, run + rest, rest, tail);
      }
    } else {
      var c, rest := s[0], s[1..];
      assert s == [c] + rest;
      FindPastNonKey(p, c, rest);
      ScanStepPast(p, [c], rest, before, tail);
      ExtractStep(p, rest, before[1..], tail);
      BareAfterNonKey(p, c, rest);
      KeysOnNonKey(p, c, rest);
      SteppedAs(p, [c] + rest, rest, tail);
    }
  }

  lemma ExtractStepInRun(p: string, run: string, rest: string, before: string, tail: string)
    requires PrefixLike(p) && AllKey(run) && Stops(rest) && run + rest == before + (p + tail)
    requires Find(run, p) == Some(|before|)
    ensures Stepped(p, run + rest, tail)
  {
    hide Find, KeysByRuns, EndsInBarePrefix, Stepped;
    var leftover := run[|before| + |p|..];
    RunAtHit(p, run, rest, before, tail);
    if leftover == "" {
      ExtractBare(p, run, rest, tail);
    } else {
      ExtractKey(p, run, rest, leftover, tail);
    }
  }

  lemma KeysOnNonKey(p: string, c: char, rest: string)
    requires !KeyChar(c)
    ensures KeysByRuns(p, [c] + rest) == KeysByRuns(p, rest)
  {
    assert ([c] + rest)[1..] == rest;
  }

  lemma SteppedAs(p: string, s: string, v: string, tail: string)
    requires KeysByRuns(p, s) == KeysByRuns(p, v) && EndsInBarePrefix(p, s) == EndsInBarePrefix(p, v)
    requires Stepped(p, v, tail)
    ensures Stepped(p, s, tail)
  {
  }

  lemma ExtractBare(p: string, run: string, rest: string, tail: string)
    requires PrefixLike(p) && AllKey(run) && Stops(rest) && |p| <= |run|
    requires Find(run, p) == Some(|run| - |p|) && tail == "" + rest
    ensures Stepped(p, run + rest, tail)
  {
    KeysOnRun(p, run, rest);
    BareAfterRun(p, run, rest);
    if rest != "" {
      assert tail == rest == [rest[0]] + rest[1..];
      BareAfterNonKey(p, rest[0], rest[1..]);
    }
  }

  lemma ExtractKey(p: string, run: string, rest: string, leftover: string, tail: string)
    requires PrefixLike(p) && AllKey(run) && Stops(rest) && leftover != "" && tail == leftover + rest
    requires Find(run, p).Some? && run[Find(run, p).value + |p|..] == leftover
    ensures Stepped(p, run + rest, tail)
  {
    hide Find, KeysByRuns, TrailingRun, KeysFrom;
    KeysInRun(leftover, rest, 0);
    KeysOnRun(p, run, rest);
    BareAfterRun(p, run, rest);
    EmptyTrailing();
    assert tail[|leftover|..] == rest && tail[..|leftover|] == leftover;
    SplitAtHit(run, p, Find(run, p).value);
    assert run[Find(run, p).value..] == p + leftover;
  }

  lemma {:induction false} ExtractDone(p: string, s: string)
    requires PrefixLike(p) && Find(s, p).None?
    ensures KeysByRuns(p, s) == [] && !EndsInBarePrefix(p, s)
    decreases |s|
  {
    if s == "" {
    } else if KeyChar(s[0]) {
      var run, rest := SplitRun(s);
      FindByRun(p, run, rest);
      ExtractDone(p, rest);
      KeysOnRun(p, run, rest);
      BareAfterRun(p, run, rest);
    } else {
      assert s == [s[0]] + s[1..];
      FindPastNonKey(p, s[0], s[1..]);
      ExtractDone(p, s[1..]);
      BareAfterNonKey(p, s[0], s[1..]);
    }
  }

  // ---- Main results ----

  /** A prefix finds no key exactly in the texts its redaction pass leaves alone. */
  lemma {:induction false} NoKeysIffClean(p: string, s: string)
    requires PrefixLike(p)
    ensures KeysByRuns(p, s) == [] <==> Clean(p, s)
    decreases |s|
  {
    if s == "" {
    } else if KeyChar(s[0]) {
      var run, rest := SplitRun(s);
      KeysOnRun(p, run, rest);
      CleanSplit(p, run, rest);
      NoKeysIffClean(p, rest);
    } else {
      assert s == [s[0]] + s[1..];
      CleanPastNonKey(p, s[0], s[1..]);
      NoKeysIffClean(p, s[1..]);
    }
  }

  lemma {:induction false} AdmitFacts(results: seq<FoundKey>, provider: string, keys: seq<string>)
    ensures results <= Admit(results, provider, keys)
    ensures forall k :: k in keys ==> Captured(Admit(results, provider, keys), k)
    ensures forall i :: |results| <= i < |Admit(results, provider, keys)| ==>
      var f := Admit(results, provider, keys)[i]; f.provider == provider && f.key in keys && !Captured(results, f.key)
    ensures Antichain(results) ==> Antichain(Admit(results, provider, keys))
    decreases |keys|
  {
    if keys != [] {
      var next := if Captured(results, keys[0]) then results else results + [FoundKey(provider, keys[0])];
      AdmitFacts(next, provider, keys[1..]);
      var all := Admit(results, provider, keys);
      assert Captured(next, keys[0]) by {
        if next != results { assert Comparable(next[|results|].key, keys[0]); }
      }
      CapturedGrows(next, all, keys[0]);
      forall i | |next| <= i < |all| ensures !Captured(results, all[i].key) {
        if Captured(results, all[i].key) { CapturedGrows(results, next, all[i].key); }
      }
    }
  }

  lemma CapturedGrows(a: seq<FoundKey>, b: seq<FoundKey>, key: string)
    requires a <= b && Captured(a, key)
    ensures Captured(b, key)
  {
    var i :| 0 <= i < |a| && Comparable(a[i].key, key);
    assert Comparable(b[i].key, key);
  }

  /** No two keys are comparable under the prefix order. */
  predicate Antichain(results: seq<FoundKey>) {
    forall i, j :: 0 <= i < j < |results| ==> !Comparable(results[i].key, results[j].key)
  }

  /** Where a found key comes from: the first prefix whose candidate was not captured before. */
  ghost predicate FoundBy(i: int, f: FoundKey, text: string) {
    0 <= i < |EXTRACTORS| && f.provider == EXTRACTORS[i].provider
    && f.key in KeysByRuns(EXTRACTORS[i].prefix, text) && !Captured(ExtractUpTo(i, text), f.key)
  }

  /** Soundness, completeness and deduplication of the extraction: every key found is some prefix's
      candidate, every candidate is comparable with a key found, and no two keys found are comparable. */
  lemma {:induction false} ExtractionCovers(n: nat, text: string)
    requires n <= |EXTRACTORS|
    ensures Antichain(ExtractUpTo(n, text))
    ensures forall f :: f in ExtractUpTo(n, text) ==> exists i :: i < n && FoundBy(i, f, text)
    ensures forall i, k :: 0 <= i < n && k in KeysByRuns(EXTRACTORS[i].prefix, text) ==>
      Captured(ExtractUpTo(n, text), k)
  {
    if n > 0 {
      ExtractionCovers(n - 1, text);
      var e, before := EXTRACTORS[n - 1], ExtractUpTo(n - 1, text);
      AdmitFacts(before, e.provider, KeysByRuns(e.prefix, text));
      var all := ExtractUpTo(n, text);
      forall f | f in all ensures exists i :: i < n && FoundBy(i, f, text) {
        if f !in before {
          var j :| 0 <= j < |all| && all[j] == f;
          assert FoundBy(n - 1, f, text);
        }
      }
      forall i, k | 0 <= i < n && k in KeysByRuns(EXTRACTORS[i].prefix, text) ensures Captured(all, k) {
        if i < n - 1 { CapturedGrows(before, all, k); }
      }
    }
  }

  /** Extraction finds nothing exactly when redaction has nothing to hide. */
  lemma ExtractionEmptyIffNothingRedacted(text: string)
    ensures ExtractUpTo(|EXTRACTORS|, text) == [] <==> RedactByRuns(KEY_PREFIXES, text) == text
  {
    var all := ExtractUpTo(|EXTRACTORS|, text);
    KeyPrefixesAreKeys();
    RedactionFixpoint(KEY_PREFIXES, text);
    if all == [] {
      forall p | p in KEY_PREFIXES ensures Clean(p, text) {
        NothingFoundIsClean(text, p);
      }
    } else {
      var p := SomethingFoundIsNotClean(text, all[0]);
    }
  }

  lemma CandidateCaptured(n: nat, i: nat, text: string, key: string)
    requires i < n <= |EXTRACTORS| && key in KeysByRuns(EXTRACTORS[i].prefix, text)
    ensures Captured(ExtractUpTo(n, text), key)
  {
    ExtractionCovers(n, text);
  }

  lemma NothingFoundIsClean(text: string, p: string)
    requires ExtractUpTo(|EXTRACTORS|, text) == [] && p in KEY_PREFIXES
    ensures Clean(p, text)
  {
    TablesAgree();
    ExtractionCovers(|EXTRACTORS|, text);
    var i :| 0 <= i < |KEY_PREFIXES| && KEY_PREFIXES[i] == p;
    assert EXTRACTORS[i].prefix == p;
    NoKeysIffClean(p, text);
    var keys := KeysByRuns(p, text);
    if keys != [] {
      CandidateCaptured(|EXTRACTORS|, i, text, keys[0]);
    }
  }

  lemma SomethingFoundIsNotClean(text: string, f: FoundKey) returns (p: string)
    requires f in ExtractUpTo(|EXTRACTORS|, text)
    ensures p in KEY_PREFIXES && !Clean(p, text)
  {
    TablesAgree();
    ExtractionCovers(|EXTRACTORS|, text);
    var i :| i < |EXTRACTORS| && FoundBy(i, f, text);
    p := KEY_PREFIXES[i];
    NoKeysIffClean(p, text);
  }

  /** Shape of a candidate: its prefix followed by at least ten key characters. */
  lemma {:induction false} CandidateShape(p: string, s: string, key: string)
    requires PrefixLike(p) && key in KeysByRuns(p, s)
    ensures AllKey(key) && StartsWith(key, p) && |key| >= |p| + MIN_KEY_CHARS
    decreases |s|
  {
    if KeyChar(s[0]) {
      var run, rest := SplitRun(s);
      FindFacts(run, p);
      if key !in RunKey(p, run) {
        CandidateShape(p, rest, key);
      }
    } else {
      CandidateShape(p, s[1..], key);
    }
  }

  /** The prefix stands at `i`, the first time in its run, with ten key characters or more behind it. */
  ghost predicate KeyAt(p: string, s: string, i: int) {
    At(s, p, i) && KeysFrom(s, i + |p|) >= MIN_KEY_CHARS
    && forall j :: 0 <= j < i && At(s, p, j) ==> exists k :: j <= k < i && !KeyChar(s[k])
  }

  /** What a prefix finds: everything from there to the end of the run. */
  ghost predicate IsKeyAt(p: string, s: string, i: int, key: string) {
    KeyAt(p, s, i) && key == s[i..i + |p| + KeysFrom(s, i + |p|)]
  }

  /** The candidates are exactly the keys of the text: each from the first prefix of a run to the end of that run, whole
      and with nothing else. */
  lemma {:induction false} CandidatesAreTheKeys(p: string, s: string, key: string)
    requires PrefixLike(p)
    ensures key in KeysByRuns(p, s) <==> exists i :: IsKeyAt(p, s, i, key)
    decreases |s|
  {
    hide Find, RunKey, IsKeyAt;
    if s == "" {
      NoKeyInNothing(p, key);
    } else if KeyChar(s[0]) {
      var run, rest := SplitRun(s);
      KeysOnRun(p, run, rest);
      CandidatesAreTheKeys(p, rest, key);
      KeyOfRun(p, run, rest, key);
      forall i ensures |run| <= i ==> (IsKeyAt(p, s, i, key) <==> IsKeyAt(p, rest, i - |run|, key)) {
        if |run| <= i { KeyShift(p, run, rest, i - |run|, key); }
      }
      if i :| IsKeyAt(p, rest, i, key) {
        assert 0 <= i by { KeyIsInside(p, rest, i, key); }
        assert IsKeyAt(p, s, |run| + i, key);
      }
      if i :| IsKeyAt(p, s, i, key) {
        KeyIsInside(p, s, i, key);
        if |run| <= i { assert IsKeyAt(p, rest, i - |run|, key); }
      }
    } else {
      var c, rest := s[0], s[1..];
      assert s == [c] + rest;
      KeysOnNonKey(p, c, rest);
      CandidatesAreTheKeys(p, rest, key);
      forall i ensures 1 <= i ==> (IsKeyAt(p, s, i, key) <==> IsKeyAt(p, rest, i - 1, key)) {
        if 1 <= i { KeyShift(p, [c], rest, i - 1, key); }
      }
      if i :| IsKeyAt(p, rest, i, key) {
        assert 0 <= i by { KeyIsInside(p, rest, i, key); }
        assert IsKeyAt(p, s, 1 + i, key);
      }
      if i :| IsKeyAt(p, s, i, key) {
        KeyIsInside(p, s, i, key);
        assert IsKeyAt(p, rest, i - 1, key);
      }
    }
  }

  lemma NoKeyInNothing(p: string, key: string)
    requires PrefixLike(p)
    ensures forall i :: !IsKeyAt(p, "", i, key)
  {
  }

  lemma KeyIsInside(p: string, s: string, i: int, key: string)
    requires PrefixLike(p) && IsKeyAt(p, s, i, key)
    ensures 0 <= i < |s| && KeyChar(s[i])
  {
    AtChar(s, p, i, i);
  }

  /** Behind a run, or behind a character that is none, keys are those of what follows. */
  lemma KeyShift(p: string, u: string, v: string, i: int, key: string)
    requires PrefixLike(p) && 0 <= i && (Stops(v) || (|u| == 1 && !KeyChar(u[0])))
    ensures IsKeyAt(p, u + v, |u| + i, key) <==> IsKeyAt(p, v, i, key)
  {
    hide KeyAt;
    AtRight(u, v, p, i);
    KeyAtIsAt(p, u + v, |u| + i);
    KeyAtIsAt(p, v, i);
    if At(v, p, i) {
      KeysPast(u, v, i + |p|);
      var n := KeysFrom(v, i + |p|);
      assert (u + v)[|u| + i..|u| + i + |p| + n] == v[i..i + |p| + n];
      if KeyAt(p, v, i) {
        KeyAtAfter(p, u, v, i);
      }
      if KeyAt(p, u + v, |u| + i) {
        KeyAtBefore(p, u, v, i);
      }
    }
  }

  lemma KeyAtIsAt(p: string, s: string, i: int)
    ensures KeyAt(p, s, i) ==> At(s, p, i)
  {
  }

  lemma KeyAtAfter(p: string, u: string, v: string, i: int)
    requires PrefixLike(p) && 0 <= i && (Stops(v) || (|u| == 1 && !KeyChar(u[0]))) && KeyAt(p, v, i)
    ensures KeyAt(p, u + v, |u| + i)
  {
    hide At, KeysFrom;
    var s := u + v;
    AtRight(u, v, p, i);
    AtBounds(v, p, i);
    KeysPast(u, v, i + |p|);
    AtChar(v, p, i, i);
    forall j | 0 <= j < |u| + i && At(s, p, j) ensures exists k :: j <= k < |u| + i && !KeyChar(s[k]) {
      if |u| <= j {
        AtRight(u, v, p, j - |u|);
        var k :| j - |u| <= k < i && !KeyChar(v[k]);
        assert s[|u| + k] == v[k];
      } else if Stops(v) {
        assert s[|u|] == v[0] && 0 < i;
      } else {
        assert s[0] == u[0] && j == 0;
      }
    }
  }

  lemma KeyAtBefore(p: string, u: string, v: string, i: int)
    requires PrefixLike(p) && 0 <= i && KeyAt(p, u + v, |u| + i)
    ensures KeyAt(p, v, i)
  {
    hide At, KeysFrom;
    AtRight(u, v, p, i);
    AtBounds(v, p, i);
    KeysPast(u, v, i + |p|);
    forall j | 0 <= j < i && At(v, p, j) ensures exists k :: j <= k < i && !KeyChar(v[k]) {
      AtRight(u, v, p, j);
      var k :| |u| + j <= k < |u| + i && !KeyChar((u + v)[k]);
      assert v[k - |u|] == (u + v)[k];
    }
  }

  lemma KeyOfRun(p: string, run: string, rest: string, key: string)
    requires PrefixLike(p) && AllKey(run) && Stops(rest)
    ensures key in RunKey(p, run) <==> exists i :: i < |run| && IsKeyAt(p, run + rest, i, key)
  {
    var s := run + rest;
    FindFacts(run, p);
    forall i | 0 <= i < |run| ensures At(s, p, i) <==> At(run, p, i) {
      if At(s, p, i) { OccurrenceInRun(p, run, rest, i); }
      if At(run, p, i) { AtLeft(run, rest, p, i); }
    }
    forall i | 0 <= i && At(run, p, i) ensures KeysFrom(s, i + |p|) == |run| - (i + |p|) {
      KeysInRun(run, rest, i + |p|);
    }
    if Find(run, p).Some? {
      var pos := Find(run, p).value;
      assert s[pos..|run|] == run[pos..];
      if key in RunKey(p, run) {
        assert IsKeyAt(p, s, pos, key);
      }
      forall i | i < |run| && IsKeyAt(p, s, i, key) ensures i == pos {
      }
    }
  }

  lemma CleanExcludes(p: string, t: string, key: string)
    requires Clean(p, t) && AllKey(key) && StartsWith(key, p) && |key| >= |p| + MIN_KEY_CHARS
    ensures forall i :: !At(t, key, i)
  {
    forall i ensures !At(t, key, i) {
      if At(t, key, i) { KeyOccurrence(p, t, key, i); }
    }
  }

  /** Where a key occurs, its prefix occurs with ten key characters behind it. */
  lemma KeyOccurrence(p: string, t: string, key: string, i: int)
    requires At(t, key, i) && AllKey(key) && StartsWith(key, p) && |key| >= |p| + MIN_KEY_CHARS
    ensures At(t, p, i) && KeysFrom(t, i + |p|) >= MIN_KEY_CHARS
  {
    var u, v := t[..i], t[i + |key|..];
    assert t == u + (key + v);
    AtLeft(key, v, p, 0);
    AtRight(u, key + v, p, 0);
    KeysPast(u, key + v, |p|);
    KeysWithin(key, v, |p|);
  }

  lemma KeysWithin(run: string, rest: string, i: nat)
    requires AllKey(run) && i <= |run|
    ensures KeysFrom(run + rest, i) >= |run| - i
    decreases |run| - i
  {
    if i < |run| {
      KeysWithin(run, rest, i + 1);
    }
  }

  /** No extracted key occurs anywhere in the redacted text. */
  lemma ExtractedKeysAreRedacted(text: string, f: FoundKey)
    requires f in ExtractUpTo(|EXTRACTORS|, text)
    ensures forall i :: !At(RedactByRuns(KEY_PREFIXES, text), f.key, i)
  {
    ExtractionCovers(|EXTRACTORS|, text);
    var i :| i < |EXTRACTORS| && FoundBy(i, f, text);
    TablesAgree();
    KeyPrefixesAreKeys();
    assert KEY_PREFIXES[i] in KEY_PREFIXES;
    RedactionIsClean(KEY_PREFIXES, text);
    CandidateShape(KEY_PREFIXES[i], text, f.key);
    CleanExcludes(KEY_PREFIXES[i], RedactByRuns(KEY_PREFIXES, text), f.key);
  }

  /** The out-of-range slice does happen: on any text that ends in a bare prefix of the table. */
  lemma BarePrefixIsOutOfRange(before: string, e: Extractor)
    requires e in EXTRACTORS && (before == "" || !KeyChar(before[|before| - 1]))
    ensures EndsInBarePrefix(e.prefix, before + e.prefix)
  {
    TablesAgree();
    var p := e.prefix;
    BareTrailing(before, p, |p|);
    assert p[..|p|] == p;
    AtLeft(p, "", p, 0);
    assert p + "" == p;
    FindIs(p, p, 0);
  }

  lemma {:induction false} BareTrailing(before: string, p: string, n: nat)
    requires AllKey(p) && n <= |p| && (before == "" || !KeyChar(before[|before| - 1]))
    ensures TrailingRun(before + p[..n]) == p[..n]
  {
    if n == 0 {
      assert before + p[..0] == before;
    } else {
      BareTrailing(before, p, n - 1);
      assert (before + p[..n])[..|before| + n - 1] == before + p[..n - 1];
      assert p[..n] == p[..n - 1] + [p[n - 1]];
    }
  }

  // ---- Provider labels ----

  lemma TrimKey(s: string)
    requires AllKey(s)
    ensures Trim(s) == s
  {
  }

  /** A long enough anthropic key found by the general "sk-" prefix is also found by "sk-ant-". */
  lemma {:induction false} LongAnthropicKey(s: string, key: string)
    requires key in KeysByRuns("sk-", s) && StartsWith(key, "sk-ant-") && |key| >= 17
    ensures key in KeysByRuns("sk-ant-", s)
    decreases |s|
  {
    if KeyChar(s[0]) {
      var run, rest := SplitRun(s);
      if key in RunKey("sk-", run) {
        var pos := Find(run, "sk-").value;
        FindFacts(run, "sk-");
        assert run == run[..pos] + key;
        AtRight(run[..pos], key, "sk-ant-", 0);
        forall j | 0 <= j < pos ensures !At(run, "sk-ant-", j) {
          ShorterPrefix(run, j);
        }
        FindIs(run, "sk-ant-", pos);
      } else {
        LongAnthropicKey(rest, key);
      }
    } else {
      LongAnthropicKey(s[1..], key);
    }
  }

  lemma ShorterPrefix(s: string, j: int)
    ensures At(s, "sk-ant-", j) ==> At(s, "sk-", j)
  {
    if At(s, "sk-ant-", j) {
      assert s[j..j + 3] == s[j..j + 7][..3];
    }
  }

  /** A key is labelled as `detect_provider_from_key` would label it, except when "sk-ant-" is followed by
      fewer than ten key characters; then it is labelled openai and detected as anthropic. */
  lemma ExtractedProvider(text: string, f: FoundKey)
    requires f in ExtractUpTo(|EXTRACTORS|, text)
    ensures DetectProviderFromKey(f.key) == Some(f.provider) <==> !(StartsWith(f.key, "sk-ant-") && |f.key| < 17)
    ensures StartsWith(f.key, "sk-ant-") && |f.key| < 17 ==> f.provider == "openai" && |f.key| >= 13
  {
    ExtractionCovers(|EXTRACTORS|, text);
    var i :| i < |EXTRACTORS| && FoundBy(i, f, text);
    TablesAgree();
    CandidateShape(EXTRACTORS[i].prefix, text, f.key);
    TrimKey(f.key);
    FirstChars(f.key, EXTRACTORS[i].prefix);
    if i == 1 && StartsWith(f.key, "sk-ant-") && |f.key| >= 17 {
      LongAnthropicKey(text, f.key);
      CandidateCaptured(1, 0, text, f.key);
      assert false;
    }
    if i > 1 {
      NotSk(f.key, EXTRACTORS[i].prefix);
    }
  }

  /** The text's own condition for a wrong label: a run yields a key for "sk-" that begins with "sk-ant-" but is
      shorter than that prefix and ten characters, and that no key for "sk-ant-" begins with. */
  predicate ShortAnthropicKey(text: string, k: string) {
    k in KeysByRuns("sk-", text) && StartsWith(k, "sk-ant-") && |k| < 17
    && forall a :: a in KeysByRuns("sk-ant-", text) ==> !Comparable(a, k)
  }

  predicate Mislabelled(f: FoundKey) {
    DetectProviderFromKey(f.key) != Some(f.provider)
  }

  /** Some key of a text is labelled otherwise than `detect_provider_from_key` would exactly when the text has such
      a short key. */
  lemma MislabelledIffShortKey(text: string)
    ensures (exists f :: f in ExtractUpTo(|EXTRACTORS|, text) && Mislabelled(f))
      <==> exists k :: ShortAnthropicKey(text, k)
  {
    hide Find, KeysByRuns, ExtractUpTo, DetectProviderFromKey;
    if f :| f in ExtractUpTo(|EXTRACTORS|, text) && Mislabelled(f) {
      ExtractedProvider(text, f);
      MislabelledIsShort(text, f);
    }
    if k :| ShortAnthropicKey(text, k) {
      var f := ShortIsMislabelled(text, k);
    }
  }

  lemma MislabelledIsShort(text: string, f: FoundKey)
    requires f in ExtractUpTo(|EXTRACTORS|, text) && f.provider == "openai" && StartsWith(f.key, "sk-ant-")
      && |f.key| < 17
    ensures ShortAnthropicKey(text, f.key)
  {
    hide Find, KeysByRuns, ExtractUpTo;
    ExtractionCovers(|EXTRACTORS|, text);
    var i :| i < |EXTRACTORS| && FoundBy(i, f, text);
    assert i == 1;
    forall a | a in KeysByRuns("sk-ant-", text) ensures !Comparable(a, f.key) {
      if Comparable(a, f.key) { ShortIsCaptured(text, a, f.key); }
    }
  }

  /** A short key comparable with a long candidate is comparable with whatever was taken for it. */
  lemma ShortIsCaptured(text: string, a: string, k: string)
    requires a in KeysByRuns("sk-ant-", text) && Comparable(a, k) && |k| < 17
    ensures Captured(ExtractUpTo(1, text), k)
  {
    hide Find, KeysByRuns, ExtractUpTo;
    CandidateCaptured(1, 0, text, a);
    var taken := ExtractUpTo(1, text);
    var j :| 0 <= j < |taken| && Comparable(taken[j].key, a);
    ExtractionCovers(1, text);
    assert taken[j] in taken;
    TablesAgree();
    CandidateShape("sk-ant-", text, a);
    CandidateShape("sk-ant-", text, taken[j].key);
    assert k <= a && k <= taken[j].key;
  }

  lemma ShortIsMislabelled(text: string, k: string) returns (f: FoundKey)
    requires ShortAnthropicKey(text, k)
    ensures f in ExtractUpTo(|EXTRACTORS|, text) && Mislabelled(f)
  {
    hide Find, KeysByRuns, ExtractUpTo, DetectProviderFromKey, StartsWith;
    f := TakenForShort(text, k);
    CandidateShape("sk-", text, f.key);
    SharePrefix(f.key, k);
    if |f.key| >= 17 {
      LongAnthropicKey(text, f.key);
    }
    ExtractedOnce(2, text);
    ExtractedProvider(text, f);
  }

  lemma TakenForShort(text: string, k: string) returns (f: FoundKey)
    requires ShortAnthropicKey(text, k)
    ensures f in ExtractUpTo(2, text) && Comparable(f.key, k) && f.key in KeysByRuns("sk-", text)
  {
    hide Find, KeysByRuns, ExtractUpTo, StartsWith;
    CandidateCaptured(2, 1, text, k);
    var taken := ExtractUpTo(2, text);
    var j :| 0 <= j < |taken| && Comparable(taken[j].key, k);
    f := taken[j];
    assert f in taken;
    ExtractionCovers(2, text);
    var i :| i < 2 && FoundBy(i, f, text);
  }

  lemma SharePrefix(a: string, k: string)
    requires Comparable(a, k) && |a| >= 7 && StartsWith(k, "sk-ant-")
    ensures StartsWith(a, "sk-ant-")
  {
    assert a[..7] == k[..7];
  }

  /** What the first prefixes find stays found. */
  lemma {:induction false} ExtractedOnce(n: nat, text: string)
    requires n <= |EXTRACTORS|
    ensures ExtractUpTo(n, text) <= ExtractUpTo(|EXTRACTORS|, text)
    decreases |EXTRACTORS| - n
  {
    hide Find, KeysByRuns, Admit;
    if n < |EXTRACTORS| {
      AdmitFacts(ExtractUpTo(n, text), EXTRACTORS[n].provider, KeysByRuns(EXTRACTORS[n].prefix, text));
      ExtractedOnce(n + 1, text);
    }
  }

  /** It does happen: this text is one such key, found without a slice out of range, labelled openai and detected
      as anthropic. */
  lemma ShortAnthropicKeyIsMislabelled()
    ensures exists f :: f in ExtractUpTo(|EXTRACTORS|, "sk-ant-abcdef") && Mislabelled(f)
    ensures forall e :: e in EXTRACTORS ==> !EndsInBarePrefix(e.prefix, "sk-ant-abcdef")
  {
    hide ExtractUpTo, Mislabelled, EndsInBarePrefix, ShortAnthropicKey, PrefixLike;
    var text := "sk-ant-abcdef";
    assert text == "sk-ant-" + "abcdef";
    WholeShortKey(text, "abcdef");
    MislabelledIffShortKey(text);
    forall e | e in EXTRACTORS ensures !EndsInBarePrefix(e.prefix, text) {
      TablesAgree();
      EndsInF(text, e.prefix);
    }
  }

  lemma EndsInF(run: string, p: string)
    requires run == "sk-ant-abcdef" && PrefixLike(p) && p[|p| - 1] != 'f'
    ensures !EndsInBarePrefix(p, run)
  {
    EndsOtherwise(run, p);
  }

  lemma EndsOtherwise(run: string, p: string)
    requires run != "" && AllKey(run) && p != "" && run[|run| - 1] != p[|p| - 1]
    ensures !EndsInBarePrefix(p, run)
  {
    TrailingWhole(run);
    FindFacts(run, p);
    if EndsInBarePrefix(p, run) { AtChar(run, p, |run| - |p|, |run| - 1); }
  }

  lemma WholeShortKey(text: string, rest: string)
    requires text == "sk-ant-" + rest && AllKey(rest) && 6 <= |rest| < 10
    ensures ShortAnthropicKey(text, text)
  {
    hide Find, KeysByRuns;
    AtLeft("sk-ant-", rest, "sk-ant-", 0);
    FindIs(text, "sk-ant-", 0);
    ShorterPrefix(text, 0);
    FindIs(text, "sk-", 0);
    WholeRun(text);
    assert text[0..] == text;
  }

  /** A text that is one run yields that run's key. */
  lemma WholeRun(run: string)
    requires run != "" && AllKey(run)
    ensures forall p | PrefixLike(p) :: KeysByRuns(p, run) == RunKey(p, run)
  {
    assert run + "" == run;
    forall p | PrefixLike(p) ensures KeysByRuns(p, run) == RunKey(p, run) {
      KeysOnRun(p, run, "");
      assert KeysByRuns(p, "") == [];
    }
  }

  lemma FirstChars(key: string, p: string)
    requires StartsWith(key, p) && |p| >= 2
    ensures key[0] == p[0] && key[1] == p[1]
  {
    AtChar(key, p, 0, 0);
    AtChar(key, p, 0, 1);
  }

  lemma NotSk(key: string, p: string)
    requires |p| >= 2 && StartsWith(key, p) && p[0] != 's'
    ensures !StartsWith(key, "sk-") && !StartsWith(key, "sk-ant-")
    ensures p[0] != 'p' ==> !StartsWith(key, "pplx-")
    ensures p[0] != 'x' ==> !StartsWith(key, "xai-")
    ensures p[0] != 'A' ==> !StartsWith(key, "AIza")
  {
    FirstChars(key, p);
    if StartsWith(key, "sk-") { FirstChars(key, "sk-"); }
    if StartsWith(key, "sk-ant-") { FirstChars(key, "sk-ant-"); }
    if StartsWith(key, "pplx-") { FirstChars(key, "pplx-"); }
    if StartsWith(key, "xai-") { FirstChars(key, "xai-"); }
    if StartsWith(key, "AIza") { FirstChars(key, "AIza"); }
  }
}
