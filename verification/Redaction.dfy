/** API-key redaction (crates/orion-birth/src/chat.rs, and the copy in crates/orion-core/src/superego.rs).

    The code scans left to right for one prefix at a time. The reference definition here works on
    maximal runs of key characters instead: a pass cuts each run behind the first occurrence of its
    prefix when at least ten key characters follow it, and touches nothing else. */
module Redaction {
  import opened Text

  const MIN_KEY_CHARS: nat := 10
  const STARS: string := "***"
  const MAX_TRACE_SNIPPET_CHARS: nat := 200

  /** The prefix table, in pass order. */
  const KEY_PREFIXES: seq<string> := ["sk-ant-", "sk-", "pplx-", "xai-", "AIza", "tvly-"]

  predicate KeyChar(c: char) {
    'a' <= c <= 'z' || 'A' <= c <= 'Z' || '0' <= c <= '9' || c == '_' || c == '-'
  }

  predicate AllKey(s: string) {
    forall i :: 0 <= i < |s| ==> KeyChar(s[i])
  }

  /** What a prefix must be for a pass to stay inside one run. */
  predicate PrefixLike(p: string) {
    p != "" && AllKey(p)
  }

  /** `take_while(key character).count()` on the text from position `i` on. */
  function KeysFrom(s: string, i: nat): (n: nat)
    requires i <= |s|
    ensures i + n <= |s|
    ensures forall j :: i <= j < i + n ==> KeyChar(s[j])
    ensures i + n < |s| ==> !KeyChar(s[i + n])
    decreases |s| - i
  {
    if i == |s| || !KeyChar(s[i]) then 0 else 1 + KeysFrom(s, i + 1)
  }

  // ---- Reference definition: one maximal run at a time ----

  /** `rest` does not continue a run of key characters. */
  predicate Stops(rest: string) {
    rest == "" || !KeyChar(rest[0])
  }

  /** What a pass does to one maximal run. */
  function Cut(p: string, run: string): string {
    match Find(run, p)
    case Some(pos) => if |run| - pos - |p| >= MIN_KEY_CHARS then run[..pos + |p|] + STARS else run
    case None => run
  }

  function PassByRuns(p: string, s: string): string
    decreases |s|
  {
    if s == "" then ""
    else if KeyChar(s[0]) then
      Cut(p, s[..KeysFrom(s, 0)]) + PassByRuns(p, s[KeysFrom(s, 0)..])
    else [s[0]] + PassByRuns(p, s[1..])
  }

  /** All passes, in order. */
  function RedactByRuns(prefixes: seq<string>, s: string): string {
    if prefixes == [] then s
    else RedactByRuns(prefixes[1..], PassByRuns(prefixes[0], s))
  }

  /** No occurrence of `p` is followed by ten or more key characters. */
  ghost predicate Clean(p: string, s: string) {
    forall i :: At(s, p, i) ==> KeysFrom(s, i + |p|) < MIN_KEY_CHARS
  }

  // ---- The code: leftmost-occurrence scans over a shrinking remainder ----

  method RedactPass(text: string, prefix: string) returns (output: string)
    requires PrefixLike(prefix)
    ensures output == PassByRuns(prefix, text)
  {
    output := "";
    var remaining := text;
    var hit := Find(remaining, prefix);
    while hit.Some?
      invariant hit == Find(remaining, prefix)
      invariant output + PassByRuns(prefix, remaining) == PassByRuns(prefix, text)
      decreases |remaining|
    {
      var pos := hit.value;
      var before := remaining[..pos];
      var afterPrefix := remaining[pos + |prefix|..];
      var keyChars := KeysFrom(afterPrefix, 0);
      SplitAtHit(remaining, prefix, pos);
      ScanStep(prefix, remaining, before, afterPrefix);
      if keyChars >= MIN_KEY_CHARS {
        Reassociate(output, before + prefix + STARS, PassByRuns(prefix, afterPrefix[keyChars..]));
        output := output + (before + prefix + STARS);
        remaining := afterPrefix[keyChars..];
      } else {
        Reassociate(output, before + prefix, PassByRuns(prefix, afterPrefix));
        output := output + (before + prefix);
        remaining := afterPrefix;
      }
      hit := Find(remaining, prefix);
    }
    NoHitNoChange(prefix, remaining);
    output := output + remaining;
  }

  method RedactApiKeys(text: string) returns (result: string)
    ensures result == RedactByRuns(KEY_PREFIXES, text)
    ensures forall p :: p in KEY_PREFIXES ==> Clean(p, result)
  {
    result := text;
    var i := 0;
    while i < |KEY_PREFIXES|
      invariant i <= |KEY_PREFIXES|
      invariant RedactByRuns(KEY_PREFIXES[i..], result) == RedactByRuns(KEY_PREFIXES, text)
    {
      KeyPrefixesAreKeys();
      assert KEY_PREFIXES[i..][1..] == KEY_PREFIXES[i + 1..];
      result := RedactPass(result, KEY_PREFIXES[i]);
      i := i + 1;
    }
    KeyPrefixesAreKeys();
    RedactionIsClean(KEY_PREFIXES, text);
  }

  // ---- Run decomposition ----

  lemma KeyPrefixesAreKeys()
    ensures forall p :: p in KEY_PREFIXES ==> PrefixLike(p)
  {
  }

  /** Every text that starts with a key character is a maximal run followed by the rest. */
  lemma SplitRun(s: string) returns (run: string, rest: string)
    requires s != "" && KeyChar(s[0])
    ensures s == run + rest && run != "" && AllKey(run) && Stops(rest)
    ensures run == s[..KeysFrom(s, 0)] && rest == s[KeysFrom(s, 0)..]
  {
    run, rest := s[..KeysFrom(s, 0)], s[KeysFrom(s, 0)..];
  }

  lemma KeysInRun(run: string, rest: string, i: nat)
    requires AllKey(run) && Stops(rest) && i <= |run|
    ensures KeysFrom(run + rest, i) == |run| - i
    decreases |run| - i
  {
    if i < |run| {
      KeysInRun(run, rest, i + 1);
    }
  }

  lemma KeysPast(u: string, v: string, i: nat)
    requires i <= |v|
    ensures KeysFrom(u + v, |u| + i) == KeysFrom(v, i)
    decreases |v| - i
  {
    if i < |v| {
      KeysPast(u, v, i + 1);
    }
  }

  /** An occurrence that begins inside a run ends inside it. */
  lemma OccurrenceInRun(p: string, run: string, rest: string, i: nat)
    requires PrefixLike(p) && Stops(rest)
    requires At(run + rest, p, i) && i < |run|
    ensures i + |p| <= |run| && At(run, p, i)
  {
    if |run| < i + |p| {
      AtChar(run + rest, p, i, |run|);
      assert false;
    }
    AtLeft(run, rest, p, i);
  }

  /** The leftmost occurrence, by whether the leading run has one. */
  lemma FindByRun(p: string, run: string, rest: string)
    requires PrefixLike(p) && Stops(rest)
    ensures Find(run, p).Some? ==> Find(run + rest, p) == Find(run, p)
    ensures Find(run, p).None? && Find(rest, p).Some? ==> Find(run + rest, p) == Some(|run| + Find(rest, p).value)
    ensures Find(run, p).None? && Find(rest, p).None? ==> Find(run + rest, p) == None
  {
    var s := run + rest;
    forall j: nat | j < |run| ensures At(s, p, j) == At(run, p, j) {
      if At(s, p, j) { OccurrenceInRun(p, run, rest, j); }
      if j + |p| <= |run| { AtLeft(run, rest, p, j); }
    }
    forall j | |run| <= j ensures At(s, p, j) == At(rest, p, j - |run|) {
      AtRight(run, rest, p, j - |run|);
    }
    FindFacts(run, p);
    FindFacts(rest, p);
    if Find(run, p).Some? {
      FindIs(s, p, Find(run, p).value);
    } else if Find(rest, p).Some? {
      FindIs(s, p, |run| + Find(rest, p).value);
    } else {
      FindIsNone(s, p);
    }
  }

  /** A single non-key character is never part of an occurrence. */
  lemma FindPastNonKey(p: string, c: char, rest: string)
    requires PrefixLike(p) && !KeyChar(c)
    ensures Find([c] + rest, p) == if Find(rest, p).Some? then Some(1 + Find(rest, p).value) else None
  {
    var s := [c] + rest;
    NotAtNonKey(p, c, rest);
    forall j | 1 <= j ensures At(s, p, j) == At(rest, p, j - 1) {
      AtRight([c], rest, p, j - 1);
    }
    FindFacts(rest, p);
    if Find(rest, p).Some? {
      FindIs(s, p, 1 + Find(rest, p).value);
    } else {
      FindIsNone(s, p);
    }
  }

  lemma NotAtNonKey(p: string, c: char, rest: string)
    requires PrefixLike(p) && !KeyChar(c)
    ensures !At([c] + rest, p, 0)
  {
    if At([c] + rest, p, 0) {
      AtChar([c] + rest, p, 0, 0);
      assert false;
    }
  }

  /** A pass on a run followed by a text that does not continue it. */
  lemma PassOnRun(p: string, run: string, rest: string)
    requires AllKey(run) && Stops(rest)
    ensures PassByRuns(p, run + rest) == Cut(p, run) + PassByRuns(p, rest)
  {
    var s := run + rest;
    if run == "" {
      assert s == rest;
      assert Cut(p, run) == "";
    } else {
      KeysInRun(run, rest, 0);
      assert s[..|run|] == run && s[|run|..] == rest && s[0] == run[0];
    }
  }

  lemma PassOnNonKey(p: string, c: char, rest: string)
    requires !KeyChar(c)
    ensures PassByRuns(p, [c] + rest) == [c] + PassByRuns(p, rest)
  {
    assert ([c] + rest)[1..] == rest;
  }

  lemma {:induction false} NoHitNoChange(p: string, s: string)
    requires PrefixLike(p) && Find(s, p).None?
    ensures PassByRuns(p, s) == s
    decreases |s|
  {
    if s == "" {
    } else if KeyChar(s[0]) {
      var run, rest := SplitRun(s);
      FindByRun(p, run, rest);
      NoHitNoChange(p, rest);
    } else {
      assert s == [s[0]] + s[1..];
      FindPastNonKey(p, s[0], s[1..]);
      NoHitNoChange(p, s[1..]);
    }
  }

  /** What one iteration of the scan does, its leftmost hit standing between `before` and `tail`. */
  function Scanned(p: string, before: string, tail: string): string {
    var k := KeysFrom(tail, 0);
    if k >= MIN_KEY_CHARS then (before + p + STARS) + PassByRuns(p, tail[k..])
    else (before + p) + PassByRuns(p, tail)
  }

  lemma ScannedShift(p: string, u: string, before: string, tail: string)
    ensures Scanned(p, u + before, tail) == u + Scanned(p, before, tail)
  {
    var k := KeysFrom(tail, 0);
    if k >= MIN_KEY_CHARS {
      assert u + before + p + STARS == u + (before + p + STARS);
      Reassociate(u, before + p + STARS, PassByRuns(p, tail[k..]));
    } else {
      assert u + before + p == u + (before + p);
      Reassociate(u, before + p, PassByRuns(p, tail));
    }
  }

  /** One iteration of the scan is one step of the run-wise definition. */
  lemma {:induction false} ScanStep(p: string, s: string, before: string, tail: string)
    requires PrefixLike(p) && s == before + (p + tail) && Find(s, p) == Some(|before|)
    ensures PassByRuns(p, s) == Scanned(p, before, tail)
    decreases |s|
  {
    if KeyChar(s[0]) {
      var run, rest := SplitRun(s);
      FindByRun(p, run, rest);
      if Find(run, p).Some? {
        ScanStepInRun(p, run, rest, before, tail);
      } else {
        ScanStepPast(p, run, rest, before, tail);
        ScanStep(p, rest, before[|run|..], tail);
        ScannedShift(p, run, before[|run|..], tail);
      }
    } else {
      assert s == [s[0]] + s[1..];
      FindPastNonKey(p, s[0], s[1..]);
      ScanStepPast(p, [s[0]], s[1..], before, tail);
      ScanStep(p, s[1..], before[1..], tail);
      ScannedShift(p, [s[0]], before[1..], tail);
    }
  }

  lemma ScanStepPast(p: string, u: string, v: string, before: string, tail: string)
    requires u + v == before + (p + tail) && |u| <= |before|
    ensures v == before[|u|..] + (p + tail) && before == u + before[|u|..]
  {
    var s := u + v;
    assert v == s[|u|..] && u == s[..|u|] && before == s[..|before|];
  }

  lemma ScanStepInRun(p: string, run: string, rest: string, before: string, tail: string)
    requires AllKey(run) && Stops(rest) && run + rest == before + (p + tail)
    requires Find(run, p) == Some(|before|)
    ensures PassByRuns(p, run + rest) == Scanned(p, before, tail)
  {
    hide Find, PassByRuns, KeysFrom;
    var leftover := run[|before| + |p|..];
    RunAtHit(p, run, rest, before, tail);
    KeysInRun(leftover, rest, 0);
    PassOnRun(p, run, rest);
    if |leftover| >= MIN_KEY_CHARS {
      assert tail[|leftover|..] == rest;
    } else {
      PassOnRun(p, leftover, rest);
      Reassociate(before + p, leftover, PassByRuns(p, rest));
    }
  }

  lemma RunAtHit(p: string, run: string, rest: string, before: string, tail: string)
    requires run + rest == before + (p + tail) && |before| + |p| <= |run|
    ensures run[..|before| + |p|] == before + p
    ensures tail == run[|before| + |p|..] + rest
    ensures run == (before + p) + run[|before| + |p|..]
  {
    var s := run + rest;
    var after := |before| + |p|;
    assert run[..after] == s[..after] == before + p;
    assert tail == s[after..];
  }

  // ---- Clean, run by run ----

  /** `Clean` for one maximal run. */
  predicate CleanRun(p: string, run: string) {
    Find(run, p).Some? ==> |run| - Find(run, p).value - |p| < MIN_KEY_CHARS
  }

  lemma CleanPastNonKey(p: string, c: char, rest: string)
    requires PrefixLike(p) && !KeyChar(c)
    ensures Clean(p, [c] + rest) == Clean(p, rest)
  {
    NotAtNonKey(p, c, rest);
    CleanShift(p, [c], rest);
  }

  /** Past its first `|u|` positions, `u + v` is clean exactly when `v` is. */
  lemma CleanShift(p: string, u: string, v: string)
    ensures Clean(p, v) <==> forall i :: |u| <= i && At(u + v, p, i) ==> KeysFrom(u + v, i + |p|) < MIN_KEY_CHARS
  {
    var s := u + v;
    forall i | 0 <= i && i + |p| <= |v|
      ensures At(s, p, |u| + i) == At(v, p, i) && KeysFrom(s, |u| + i + |p|) == KeysFrom(v, i + |p|)
    {
      AtRight(u, v, p, i);
      KeysPast(u, v, i + |p|);
    }
    if Clean(p, v) {
      forall i | |u| <= i && At(s, p, i) ensures KeysFrom(s, i + |p|) < MIN_KEY_CHARS {
        assert At(v, p, i - |u|);
      }
    }
    if forall i :: |u| <= i && At(s, p, i) ==> KeysFrom(s, i + |p|) < MIN_KEY_CHARS {
      forall i | At(v, p, i) ensures KeysFrom(v, i + |p|) < MIN_KEY_CHARS {
        assert At(s, p, |u| + i);
      }
    }
  }

  lemma CleanSplit(p: string, run: string, rest: string)
    requires PrefixLike(p) && AllKey(run) && Stops(rest)
    ensures Clean(p, run + rest) <==> CleanRun(p, run) && Clean(p, rest)
  {
    var s := run + rest;
    CleanShift(p, run, rest);
    FindFacts(run, p);
    if Clean(p, s) && Find(run, p).Some? {
      var pos := Find(run, p).value;
      AtLeft(run, rest, p, pos);
      KeysInRun(run, rest, pos + |p|);
    }
    if CleanRun(p, run) && Clean(p, rest) {
      forall i | At(s, p, i) ensures KeysFrom(s, i + |p|) < MIN_KEY_CHARS {
        if i < |run| {
          OccurrenceInRun(p, run, rest, i);
          KeysInRun(run, rest, i + |p|);
        }
      }
    }
  }

  // ---- Main results ----

  /** Cutting leaves the run whole, or leaves a shorter run followed by stars; either way what is
      left is clean for the cutting prefix, and for every prefix the run was clean for. */
  lemma CutKeepsClean(p: string, q: string, run: string) returns (kept: string, stars: string)
    requires PrefixLike(p) && PrefixLike(q) && AllKey(run)
    requires CleanRun(q, run) || p == q
    ensures Cut(p, run) == kept + stars
    ensures AllKey(kept) && CleanRun(q, kept) && (stars == "" || stars == STARS)
  {
    kept, stars := run, "";
    if Find(run, p).Some? && |run| - Find(run, p).value - |p| >= MIN_KEY_CHARS {
      kept, stars := run[..Find(run, p).value + |p|], STARS;
      assert run == kept + run[|kept|..];
      FindFacts(run, q);
      FindFacts(kept, q);
      if Find(kept, q).Some? {
        var i := Find(kept, q).value;
        AtLeft(kept, run[|kept|..], q, i);
      }
    }
  }

  /** A pass makes the text clean for its own prefix, and never makes a key of a prefix that
      had none: what an earlier pass removed, no later pass brings back. */
  lemma {:induction false} PassKeepsClean(p: string, q: string, s: string)
    requires PrefixLike(p) && PrefixLike(q)
    requires Clean(q, s) || p == q
    ensures Clean(q, PassByRuns(p, s))
    decreases |s|
  {
    if s == "" {
    } else if KeyChar(s[0]) {
      var run, rest := SplitRun(s);
      CleanSplit(q, run, rest);
      PassKeepsClean(p, q, rest);
      var rest' := PassByRuns(p, rest);
      PassKeepsStop(p, rest);
      var kept, stars := CutKeepsClean(p, q, run);
      CleanPastStars(q, stars, rest');
      CleanSplit(q, kept, stars + rest');
      Reassociate(kept, stars, rest');
    } else {
      assert s == [s[0]] + s[1..];
      CleanPastNonKey(q, s[0], s[1..]);
      PassKeepsClean(p, q, s[1..]);
      CleanPastNonKey(q, s[0], PassByRuns(p, s[1..]));
    }
  }

  lemma PassKeepsStop(p: string, s: string)
    requires Stops(s)
    ensures Stops(PassByRuns(p, s))
  {
  }

  lemma {:induction false} CleanPastStars(q: string, stars: string, t: string)
    requires PrefixLike(q) && Clean(q, t) && Stars(stars)
    ensures Clean(q, stars + t)
  {
    if stars == "" {
      assert stars + t == t;
    } else {
      CleanPastStars(q, stars[1..], t);
      CleanPastNonKey(q, '*', stars[1..] + t);
      assert stars + t == ['*'] + (stars[1..] + t);
    }
  }

  /** A pass leaves a text alone exactly when it holds no key of its prefix. */
  lemma {:induction false} PassFixpoint(p: string, s: string)
    requires PrefixLike(p)
    ensures PassByRuns(p, s) == s <==> Clean(p, s)
  {
    if PassByRuns(p, s) == s {
      PassKeepsClean(p, p, s);
    }
    if Clean(p, s) {
      CleanUnchanged(p, s);
    }
  }

  lemma {:induction false} CleanUnchanged(p: string, s: string)
    requires PrefixLike(p) && Clean(p, s)
    ensures PassByRuns(p, s) == s
    decreases |s|
  {
    if s == "" {
    } else if KeyChar(s[0]) {
      var run, rest := SplitRun(s);
      CleanSplit(p, run, rest);
      CleanUnchanged(p, rest);
    } else {
      assert s == [s[0]] + s[1..];
      CleanPastNonKey(p, s[0], s[1..]);
      CleanUnchanged(p, s[1..]);
    }
  }

  lemma {:induction false} LaterPassesKeepClean(prefixes: seq<string>, q: string, s: string)
    requires forall p :: p in prefixes ==> PrefixLike(p)
    requires PrefixLike(q) && Clean(q, s)
    ensures Clean(q, RedactByRuns(prefixes, s))
  {
    if prefixes != [] {
      PassKeepsClean(prefixes[0], q, s);
      LaterPassesKeepClean(prefixes[1..], q, PassByRuns(prefixes[0], s));
    }
  }

  /** Safety of the whole sequence of passes, for any list of prefixes made of key characters. */
  lemma {:induction false} RedactionIsClean(prefixes: seq<string>, s: string)
    requires forall p :: p in prefixes ==> PrefixLike(p)
    ensures forall q :: q in prefixes ==> Clean(q, RedactByRuns(prefixes, s))
  {
    if prefixes != [] {
      var s' := PassByRuns(prefixes[0], s);
      PassKeepsClean(prefixes[0], prefixes[0], s);
      LaterPassesKeepClean(prefixes[1..], prefixes[0], s');
      RedactionIsClean(prefixes[1..], s');
    }
  }

  /** Redaction changes nothing exactly when no prefix has a key in the text. */
  lemma {:induction false} RedactionFixpoint(prefixes: seq<string>, s: string)
    requires forall p :: p in prefixes ==> PrefixLike(p)
    ensures RedactByRuns(prefixes, s) == s <==> forall q :: q in prefixes ==> Clean(q, s)
  {
    if RedactByRuns(prefixes, s) == s {
      RedactionIsClean(prefixes, s);
    }
    if (forall q :: q in prefixes ==> Clean(q, s)) && prefixes != [] {
      assert prefixes[0] in prefixes;
      PassFixpoint(prefixes[0], s);
      RedactionFixpoint(prefixes[1..], s);
    }
  }

  lemma RedactionIdempotent(s: string)
    ensures RedactByRuns(KEY_PREFIXES, RedactByRuns(KEY_PREFIXES, s)) == RedactByRuns(KEY_PREFIXES, s)
  {
    KeyPrefixesAreKeys();
    RedactionIsClean(KEY_PREFIXES, s);
    RedactionFixpoint(KEY_PREFIXES, RedactByRuns(KEY_PREFIXES, s));
  }

  predicate Stars(stars: string) {
    forall i :: 0 <= i < |stars| ==> stars[i] == '*'
  }

  /** The text does not end inside a run. */
  predicate Breaks(u: string) {
    u == "" || !KeyChar(u[|u| - 1])
  }

  lemma {:induction false} PassConcat(p: string, u: string, t: string)
    requires Breaks(u)
    ensures PassByRuns(p, u + t) == PassByRuns(p, u) + PassByRuns(p, t) && Breaks(PassByRuns(p, u))
    decreases |u|
  {
    hide PassByRuns, Cut;
    if u == "" {
      assert u + t == t;
      PassOfNothing(p, t);
    } else if KeyChar(u[0]) {
      var run, rest := SplitRun(u);
      PassOnRun(p, run, rest);
      PassOnRun(p, run, rest + t);
      PassConcat(p, rest, t);
      Reassociate(run, rest, t);
      Reassociate(Cut(p, run), PassByRuns(p, rest), PassByRuns(p, t));
      SomethingLeft(p, rest);
    } else {
      var c, rest := u[0], u[1..];
      assert u == [c] + rest && u + t == [c] + (rest + t);
      PassOnNonKey(p, c, rest);
      PassOnNonKey(p, c, rest + t);
      PassConcat(p, rest, t);
    }
  }

  lemma PassOfNothing(p: string, t: string)
    ensures PassByRuns(p, "") == "" && "" + PassByRuns(p, t) == PassByRuns(p, t)
  {
  }

  lemma SomethingLeft(p: string, s: string)
    requires s != "" && !KeyChar(s[0])
    ensures PassByRuns(p, s) != ""
  {
  }

  /** Redaction works on its own on both sides of any point where no run goes across. */
  lemma {:induction false} RedactionDistributes(prefixes: seq<string>, u: string, t: string)
    requires Breaks(u)
    ensures RedactByRuns(prefixes, u + t) == RedactByRuns(prefixes, u) + RedactByRuns(prefixes, t)
  {
    if prefixes != [] {
      PassConcat(prefixes[0], u, t);
      RedactionDistributes(prefixes[1..], PassByRuns(prefixes[0], u), PassByRuns(prefixes[0], t));
    }
  }

  /** `key` begins with no prefix before the `k`-th, and holds none anywhere else. */
  ghost predicate FirstAt(prefixes: seq<string>, k: nat, key: string) {
    k < |prefixes|
    && (forall j :: 0 <= j < k ==> !At(key, prefixes[j], 0))
    && (forall j, i :: 0 <= j < |prefixes| && 0 < i ==> !At(key, prefixes[j], i))
  }

  /** What a whole key becomes: the first prefix of the list that it begins with, and three stars. */
  lemma {:induction false} RunIsHidden(prefixes: seq<string>, k: nat, body: string, rest: string)
    requires forall p :: p in prefixes ==> PrefixLike(p) && |p| <= MIN_KEY_CHARS
    requires k < |prefixes| && FirstAt(prefixes, k, prefixes[k] + body)
    requires AllKey(body) && |body| >= MIN_KEY_CHARS && Stops(rest)
    ensures RedactByRuns(prefixes, (prefixes[k] + body) + rest)
         == prefixes[k] + (STARS + RedactByRuns(prefixes, rest))
  {
    hide PassByRuns, Cut, At, Find, FirstAt, Stops;
    var q, key := prefixes[0], prefixes[k] + body;
    assert q in prefixes && prefixes[k] in prefixes;
    AllKeyJoins(prefixes[k], body);
    PassOnRun(q, key, rest);
    PassKeepsStop(q, rest);
    if k == 0 {
      WholeKeyIsCut(q, body);
      Reassociate(q, STARS, PassByRuns(q, rest));
      KeptPastStars(prefixes[1..], q, PassByRuns(q, rest));
    } else {
      FirstAtRest(prefixes, k, key);
      assert prefixes[1..][k - 1] == prefixes[k];
      RunIsHidden(prefixes[1..], k - 1, body, PassByRuns(q, rest));
    }
  }

  lemma AllKeyJoins(a: string, b: string)
    requires AllKey(a) && AllKey(b)
    ensures AllKey(a + b)
  {
  }

  lemma WholeKeyIsCut(p: string, body: string)
    requires |body| >= MIN_KEY_CHARS
    ensures Cut(p, p + body) == p + STARS
  {
    AtLeft(p, body, p, 0);
    FindIs(p + body, p, 0);
    assert (p + body)[..|p|] == p;
  }

  lemma FirstAtRest(prefixes: seq<string>, k: nat, key: string)
    requires 0 < k && FirstAt(prefixes, k, key)
    ensures Cut(prefixes[0], key) == key && FirstAt(prefixes[1..], k - 1, key)
  {
    hide At;
    FindIsNone(key, prefixes[0]);
  }

  /** Once a key is hidden no later pass touches what is left of it. */
  lemma {:induction false} KeptPastStars(prefixes: seq<string>, p: string, rest: string)
    requires forall q :: q in prefixes ==> PrefixLike(q)
    requires AllKey(p) && |p| <= MIN_KEY_CHARS
    ensures RedactByRuns(prefixes, p + (STARS + rest)) == p + (STARS + RedactByRuns(prefixes, rest))
  {
    hide PassByRuns;
    if prefixes != [] {
      var q := prefixes[0];
      assert q in prefixes;
      PassOnRun(q, p, STARS + rest);
      PassPastStars(q, STARS, rest);
      KeptPastStars(prefixes[1..], p, PassByRuns(q, rest));
    }
  }

  /** "Order matters": wherever a key stands on its own, redaction leaves the first prefix of the table that it begins
      with and three stars, and redacts what is around it independently. */
  lemma KeyIsHidden(before: string, k: nat, body: string, rest: string)
    requires k < |KEY_PREFIXES| && FirstAt(KEY_PREFIXES, k, KEY_PREFIXES[k] + body)
    requires Breaks(before) && AllKey(body) && |body| >= MIN_KEY_CHARS && Stops(rest)
    ensures RedactByRuns(KEY_PREFIXES, before + ((KEY_PREFIXES[k] + body) + rest))
         == RedactByRuns(KEY_PREFIXES, before)
            + (KEY_PREFIXES[k] + (STARS + RedactByRuns(KEY_PREFIXES, rest)))
  {
    hide RedactByRuns;
    KeyPrefixesAreKeys();
    RedactionDistributes(KEY_PREFIXES, before, (KEY_PREFIXES[k] + body) + rest);
    RunIsHidden(KEY_PREFIXES, k, body, rest);
  }

  /** So an anthropic key is not cut down to "sk-", although it begins with that, too. */
  lemma AnthropicKeyIsHidden()
    ensures RedactByRuns(KEY_PREFIXES, "key: sk-ant-REDACTED") == "key: sk-ant-***"
  {
    hide RedactByRuns;
    var body := "abcdefghij1234567890";
    AnthropicComesFirst(body);
    assert KEY_PREFIXES[0] == "sk-ant-";
    KeyIsHidden("key: ", 0, body, "");
    assert "key: " + ((KEY_PREFIXES[0] + body) + "") == "key: sk-ant-REDACTED";
    KeyPrefixesAreKeys();
    NothingToHide("key: ");
    NothingToHide("");
  }

  lemma NothingToHide(s: string)
    requires |s| < MIN_KEY_CHARS
    ensures RedactByRuns(KEY_PREFIXES, s) == s
  {
    KeyPrefixesAreKeys();
    RedactionFixpoint(KEY_PREFIXES, s);
  }

  lemma AnthropicComesFirst(body: string)
    requires body == "abcdefghij1234567890"
    ensures FirstAt(KEY_PREFIXES, 0, "sk-ant-" + body)
  {
    forall j, i | 0 <= j < |KEY_PREFIXES| && 0 < i ensures !At("sk-ant-" + body, KEY_PREFIXES[j], i) {
      BeginsNowhereElse(body, KEY_PREFIXES[j], i);
    }
  }

  /** Behind its first character the key has none of the beginnings of the table. */
  lemma BeginsNowhereElse(body: string, p: string, i: int)
    requires body == "abcdefghij1234567890" && p in KEY_PREFIXES && 0 < i
    ensures !At("sk-ant-" + body, p, i)
  {
    hide At;
    assert |p| >= 2 && (p[0] in {'s', 'p', 'x', 'A'} || (p[0] == 't' && p[1] == 'v'));
    if At("sk-ant-" + body, p, i) {
      AtBounds("sk-ant-" + body, p, i);
      AtChar("sk-ant-" + body, p, i, i);
      AtChar("sk-ant-" + body, p, i, i + 1);
    }
  }

  /** Redaction never reaches across a non-key character: it rewrites each maximal run on its own,
      to a part of the run that ends in a prefix, followed by stars, or leaves the run whole. */
  lemma {:induction false} RedactionIsLocal(prefixes: seq<string>, run: string, stars: string, rest: string)
    returns (kept: string, stars': string)
    requires AllKey(run) && Stars(stars) && Stops(rest)
    requires forall p :: p in prefixes ==> PrefixLike(p)
    ensures RedactByRuns(prefixes, run + (stars + rest)) == kept + (stars' + RedactByRuns(prefixes, rest))
    ensures kept <= run && Stars(stars')
    ensures kept == run || exists p :: p in prefixes && EndsWith(kept, p)
  {
    if prefixes == [] {
      kept, stars' := run, stars;
    } else {
      var p := prefixes[0];
      var run0, stars0 := PassOnRunAndStars(p, run, stars, rest);
      PassKeepsStop(p, rest);
      kept, stars' := RedactionIsLocal(prefixes[1..], run0, stars0, PassByRuns(p, rest));
      if kept == run0 {
        assert p in prefixes;
      } else {
        var p' :| p' in prefixes[1..] && EndsWith(kept, p');
        assert p' in prefixes;
      }
    }
  }

  lemma PassOnRunAndStars(p: string, run: string, stars: string, rest: string) returns (kept: string, stars': string)
    requires PrefixLike(p) && AllKey(run) && Stars(stars) && Stops(rest)
    ensures PassByRuns(p, run + (stars + rest)) == kept + (stars' + PassByRuns(p, rest))
    ensures kept <= run && AllKey(kept) && Stars(stars')
    ensures kept == run || EndsWith(kept, p)
  {
    hide Find, PassByRuns;
    var rest' := PassByRuns(p, rest);
    PassOnRun(p, run, stars + rest);
    PassPastStars(p, stars, rest);
    if Find(run, p).Some? && |run| - Find(run, p).value - |p| >= MIN_KEY_CHARS {
      kept, stars' := run[..Find(run, p).value + |p|], STARS + stars;
      SplitAtHit(run, p, Find(run, p).value);
      Reassociate(kept, STARS, stars + rest');
      Reassociate(STARS, stars, rest');
    } else {
      kept, stars' := run, stars;
    }
  }

  lemma {:induction false} PassPastStars(p: string, stars: string, rest: string)
    requires Stars(stars)
    ensures PassByRuns(p, stars + rest) == stars + PassByRuns(p, rest)
  {
    hide PassByRuns;
    if stars == "" {
      assert stars + rest == rest;
    } else {
      PassPastStars(p, stars[1..], rest);
      assert stars + rest == ['*'] + (stars[1..] + rest);
      PassOnNonKey(p, '*', stars[1..] + rest);
    }
  }

  // ---- Trace snippets (superego.rs) ----

  /** Any beginning of a clean text is clean. */
  lemma CleanTake(p: string, a: string, b: string)
    requires Clean(p, a + b)
    ensures Clean(p, a)
  {
    forall i | At(a, p, i) ensures KeysFrom(a, i + |p|) < MIN_KEY_CHARS {
      AtLeft(a, b, p, i);
      KeysGrow(a, b, i + |p|);
    }
  }

  lemma KeysGrow(a: string, b: string, i: nat)
    requires i <= |a|
    ensures KeysFrom(a, i) <= KeysFrom(a + b, i)
    decreases |a| - i
  {
    if i < |a| {
      KeysGrow(a, b, i + 1);
    }
  }

  /** Clean texts joined at a non-key character stay clean. */
  lemma {:induction false} CleanJoin(p: string, a: string, b: string)
    requires PrefixLike(p) && Clean(p, a) && Clean(p, b) && Stops(b)
    ensures Clean(p, a + b)
    decreases |a|
  {
    if a == "" {
      assert a + b == b;
    } else if KeyChar(a[0]) {
      var run, rest := SplitRun(a);
      CleanSplit(p, run, rest);
      CleanJoin(p, rest, b);
      CleanSplit(p, run, rest + b);
      assert a + b == run + (rest + b);
    } else {
      assert a == [a[0]] + a[1..];
      CleanPastNonKey(p, a[0], a[1..]);
      CleanJoin(p, a[1..], b);
      CleanPastNonKey(p, a[0], a[1..] + b);
      assert a + b == [a[0]] + (a[1..] + b);
    }
  }

  /** A text of fifteen characters whose fifth and last are no key characters never has ten key
      characters in a row. */
  lemma BrokenIsClean(p: string, t: string)
    requires |t| == 15 && !KeyChar(t[4]) && !KeyChar(t[14])
    ensures Clean(p, t)
  {
    forall i | At(t, p, i) ensures KeysFrom(t, i + |p|) < MIN_KEY_CHARS {
      var n := KeysFrom(t, i + |p|);
    }
  }

  lemma MarkerIsClean(p: string)
    ensures Clean(p, TRUNCATED) && Stops(TRUNCATED)
  {
    hide Clean;
    assert |TRUNCATED| == 15 && TRUNCATED[0] == ' ' && TRUNCATED[4] == '[' && TRUNCATED[14] == ']';
    BrokenIsClean(p, TRUNCATED);
  }

  /** A safety-trace snippet holds no key, truncated or not, and stays within the cap plus the marker. */
  method SanitizeSnippet(input: string) returns (snippet: string)
    ensures forall p :: p in KEY_PREFIXES ==> Clean(p, snippet)
    ensures snippet == Truncated(RedactByRuns(KEY_PREFIXES, input), MAX_TRACE_SNIPPET_CHARS)
  {
    var redacted := RedactApiKeys(input);
    snippet := TruncateChars(redacted, MAX_TRACE_SNIPPET_CHARS);
    if |redacted| > MAX_TRACE_SNIPPET_CHARS {
      forall p | p in KEY_PREFIXES ensures Clean(p, snippet) {
        var head, tail := redacted[..MAX_TRACE_SNIPPET_CHARS], redacted[MAX_TRACE_SNIPPET_CHARS..];
        assert redacted == head + tail;
        KeyPrefixesAreKeys();
        CleanTake(p, head, tail);
        MarkerIsClean(p);
        CleanJoin(p, head, TRUNCATED);
      }
    }
  }
}
