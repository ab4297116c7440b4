/** String primitives the scanners share: substring search, prefix tests and trimming,
    over text taken as a sequence of ASCII characters. */
module Text {

  datatype Option<+T> = None | Some(value: T)

  datatype Result<+T, +E> = Ok(value: T) | Err(error: E)

  /** `p` occurs in `s` at position `i`. */
  predicate At(s: string, p: string, i: int) {
    0 <= i && i + |p| <= |s| && s[i..i + |p|] == p
  }

  /** `str::find`: the leftmost occurrence of `p` in `s`, if any. */
  function Find(s: string, p: string): (r: Option<nat>)
    ensures r.Some? ==> r.value + |p| <= |s|
  {
    FindFrom(s, p, 0)
  }

  function FindFrom(s: string, p: string, i: nat): (r: Option<nat>)
    requires i <= |s|
    ensures r.Some? ==> r.value + |p| <= |s|
    decreases |s| - i
  {
    if At(s, p, i) then Some(i)
    else if i == |s| then None
    else FindFrom(s, p, i + 1)
  }

  /** `Find` returns an occurrence with none before it, and `None` only when there is none at all. */
  lemma FindFacts(s: string, p: string)
    ensures Find(s, p).Some? ==> At(s, p, Find(s, p).value) && forall j :: 0 <= j < Find(s, p).value ==> !At(s, p, j)
    ensures Find(s, p).None? ==> forall j :: !At(s, p, j)
  {
    FindFromFacts(s, p, 0);
  }

  lemma {:induction false} FindFromFacts(s: string, p: string, i: nat)
    requires i <= |s|
    ensures var r := FindFrom(s, p, i);
      (r.Some? ==> i <= r.value && At(s, p, r.value) && forall j :: i <= j < r.value ==> !At(s, p, j)) &&
      (r.None? ==> forall j :: i <= j ==> !At(s, p, j))
    decreases |s| - i
  {
    if !At(s, p, i) && i < |s| {
      FindFromFacts(s, p, i + 1);
    }
  }

  /** The leftmost occurrence is unique: this is how a position is shown to be what `Find` returns. */
  lemma FindIs(s: string, p: string, i: nat)
    requires At(s, p, i)
    requires forall j :: 0 <= j < i ==> !At(s, p, j)
    ensures Find(s, p) == Some(i)
  {
    FindFacts(s, p);
  }

  lemma FindIsNone(s: string, p: string)
    requires forall j :: 0 <= j ==> !At(s, p, j)
    ensures Find(s, p) == None
  {
    FindFacts(s, p);
  }

  /** A text around its leftmost occurrence. */
  lemma SplitAtHit(s: string, p: string, pos: nat)
    requires Find(s, p) == Some(pos)
    ensures s == s[..pos] + (p + s[pos + |p|..])
  {
    FindFacts(s, p);
  }

  lemma Reassociate<T>(a: seq<T>, b: seq<T>, c: seq<T>)
    ensures a + (b + c) == (a + b) + c
  {
  }

  lemma AtChar(s: string, p: string, i: int, j: int)
    requires At(s, p, i) && i <= j < i + |p|
    ensures s[j] == p[j - i]
  {
    assert s[i..i + |p|][j - i] == p[j - i];
  }

  lemma AtBounds(s: string, p: string, i: int)
    requires At(s, p, i)
    ensures 0 <= i && i + |p| <= |s|
  {
  }

  lemma AtLeft(u: string, v: string, p: string, i: int)
    requires i + |p| <= |u|
    ensures At(u + v, p, i) == At(u, p, i)
  {
    if 0 <= i { assert (u + v)[i..i + |p|] == u[i..i + |p|]; }
  }

  lemma AtRight(u: string, v: string, p: string, i: int)
    requires 0 <= i
    ensures At(u + v, p, |u| + i) == At(v, p, i)
  {
    if i + |p| <= |v| { assert (u + v)[|u| + i..|u| + i + |p|] == v[i..i + |p|]; }
  }

  predicate StartsWith(s: string, p: string) {
    At(s, p, 0)
  }

  predicate EndsWith(s: string, p: string) {
    |p| <= |s| && s[|s| - |p|..] == p
  }

  predicate IsSpace(c: char) {
    c == ' ' || c == '\n' || c == '\t' || c == '\r' || c == '\U{000B}' || c == '\U{000C}'
  }

  function TrimStart(s: string): string {
    if s != "" && IsSpace(s[0]) then TrimStart(s[1..]) else s
  }

  function TrimEnd(s: string): string {
    if s != "" && IsSpace(s[|s| - 1]) then TrimEnd(s[..|s| - 1]) else s
  }

  /** `str::trim`. */
  function Trim(s: string): string {
    TrimEnd(TrimStart(s))
  }

  /** Trimmed text starts and ends in something else than white space. */
  predicate IsTrimmed(s: string) {
    s == "" || (!IsSpace(s[0]) && !IsSpace(s[|s| - 1]))
  }

  predicate AllSpace(s: string) {
    forall i :: 0 <= i < |s| ==> IsSpace(s[i])
  }

  lemma {:induction false} TrimStartFacts(s: string)
    ensures var t := TrimStart(s);
      |t| <= |s| && s[|s| - |t|..] == t && AllSpace(s[..|s| - |t|]) && (t == "" || !IsSpace(t[0]))
  {
    if s != "" && IsSpace(s[0]) {
      TrimStartFacts(s[1..]);
      var t := TrimStart(s);
      assert s[|s| - |t|..] == s[1..][|s| - 1 - |t|..];
      assert s[..|s| - |t|] == [s[0]] + s[1..][..|s| - 1 - |t|];
    }
  }

  lemma {:induction false} TrimEndFacts(s: string)
    ensures var t := TrimEnd(s); t <= s && AllSpace(s[|t|..]) && (t == "" || !IsSpace(t[|t| - 1]))
  {
    if s != "" && IsSpace(s[|s| - 1]) {
      TrimEndFacts(s[..|s| - 1]);
      var t := TrimEnd(s);
      assert s[|t|..] == s[..|s| - 1][|t|..] + [s[|s| - 1]];
    }
  }

  /** Trimming takes off white space at both ends, all of it, and nothing else. */
  lemma TrimFacts(s: string) returns (before: string, after: string)
    ensures s == before + Trim(s) + after && AllSpace(before) && AllSpace(after) && IsTrimmed(Trim(s))
  {
    TrimStartFacts(s);
    TrimEndFacts(TrimStart(s));
    before, after := s[..|s| - |TrimStart(s)|], TrimStart(s)[|Trim(s)|..];
  }

  lemma TrimIdempotent(s: string)
    ensures IsTrimmed(Trim(s))
  {
    var _, _ := TrimFacts(s);
  }

  const TRUNCATED: string := " ...[truncated]"

  /** `truncate_chars`: at most `maxChars` characters, and a marker when some are cut off. */
  function Truncated(s: string, maxChars: nat): (r: string)
    ensures |r| <= maxChars + |TRUNCATED|
    ensures |s| <= maxChars ==> r == s
    ensures |s| > maxChars ==> s[..maxChars] <= r && EndsWith(r, TRUNCATED) && |r| == maxChars + |TRUNCATED|
  {
    if |s| <= maxChars then s else s[..maxChars] + TRUNCATED
  }

  method TruncateChars(input: string, maxChars: nat) returns (out: string)
    ensures out == Truncated(input, maxChars)
  {
    if |input| <= maxChars {
      return input;
    }
    out := "";
    for i := 0 to maxChars
      invariant out == input[..i]
    {
      out := out + [input[i]];
    }
    out := out + TRUNCATED;
  }

  /** `to_lowercase` on ASCII text: no capital is left, and nothing else changes. */
  function Lower(s: string): (r: string)
    ensures |r| == |s|
    ensures forall i :: 0 <= i < |s| ==> !('A' <= r[i] <= 'Z')
    ensures forall i :: 0 <= i < |s| && !('A' <= s[i] <= 'Z') ==> r[i] == s[i]
    ensures forall i, j :: 0 <= i < j < |s| && 'A' <= s[i] <= 'Z' && 'A' <= s[j] <= 'Z' && r[i] == r[j] ==> s[i] == s[j]
  {
    seq(|s|, i requires 0 <= i < |s| => if 'A' <= s[i] <= 'Z' then (s[i] as int + 32) as char else s[i])
  }

  /** `format!("{}", n)` for an unsigned number. */
  function Decimal(n: nat): (r: string)
    ensures r != ""
    ensures forall c :: c in r ==> '0' <= c <= '9'
  {
    if n < 10 then [(n + '0' as int) as char]
    else Decimal(n / 10) + Decimal(n % 10)
  }

  function Value(digits: string): int {
    if digits == "" then 0
    else 10 * Value(digits[..|digits| - 1]) + (digits[|digits| - 1] as int - '0' as int)
  }

  lemma {:induction false} DecimalValue(n: nat)
    ensures Value(Decimal(n)) == n
  {
    if n >= 10 {
      DecimalValue(n / 10);
      var d := Decimal(n);
      assert |Decimal(n % 10)| == 1;
      assert d[..|d| - 1] == Decimal(n / 10);
    }
  }

  /** Decimal rendering is injective, so numbered ids never collide. */
  lemma DecimalInjective(m: nat, n: nat)
    requires Decimal(m) == Decimal(n)
    ensures m == n
  {
    DecimalValue(m);
    DecimalValue(n);
  }
}
