/** Trimming the conversation to a token budget (crates/orion-api/src/agentic.rs, `trim_context`). */
module ContextTrim {
  import opened Text

  datatype Message = Message(role: string, content: string)

  /** System prompt and goal: never trimmed. */
  const KEEP_PREFIX: nat := 2

  function EstimateTokens(text: string): nat {
    |text| / 4 + 4
  }

  function Total(ms: seq<Message>): nat {
    if ms == [] then 0 else EstimateTokens(ms[0].content) + Total(ms[1..])
  }

  function Summary(count: nat, tokens: nat): Message {
    Message("user", "[Context trimmed: " + Decimal(count) + " earlier messages (~" + Decimal(tokens)
                    + " tokens) removed to save context window]")
  }

  function SaturatingSub(a: nat, b: nat): nat {
    if b <= a then a - b else 0
  }

  /** What the prefix leaves of the budget. */
  function Available(ms: seq<Message>, maxTokens: nat): nat
    requires |ms| >= KEEP_PREFIX
  {
    SaturatingSub(maxTokens, Total(ms[..KEEP_PREFIX]))
  }

  /** `ms[k..]` is the longest suffix behind the prefix that fits in what is available. */
  predicate LongestFit(ms: seq<Message>, maxTokens: nat, k: int) {
    KEEP_PREFIX <= k <= |ms|
    && Total(ms[k..]) <= Available(ms, maxTokens)
    && (k > KEEP_PREFIX ==> Total(ms[k - 1..]) > Available(ms, maxTokens))
  }

  /** The list with everything between the prefix and `k` replaced by a summary. */
  function CutAt(ms: seq<Message>, k: nat): seq<Message>
    requires KEEP_PREFIX <= k <= |ms|
  {
    if k == KEEP_PREFIX then ms
    else ms[..KEEP_PREFIX] + [Summary(k - KEEP_PREFIX, Total(ms[KEEP_PREFIX..k]))] + ms[k..]
  }

  ghost predicate Trimmed(ms: seq<Message>, maxTokens: nat, out: seq<Message>) {
    if |ms| <= KEEP_PREFIX then out == ms
    else exists k :: LongestFit(ms, maxTokens, k) && out == CutAt(ms, k)
  }

  method TrimContext(messages: seq<Message>, maxTokens: nat) returns (out: seq<Message>)
    ensures Trimmed(messages, maxTokens, out)
  {
    if |messages| <= KEEP_PREFIX {
      return messages;
    }
    var available := Available(messages, maxTokens);
    var tailTokens := 0;
    var keepFrom := |messages|;
    var i := |messages|;
    while i > KEEP_PREFIX
      invariant KEEP_PREFIX <= i == keepFrom <= |messages|
      invariant tailTokens == Total(messages[keepFrom..]) <= available
    {
      i := i - 1;
      var msgTokens := EstimateTokens(messages[i].content);
      assert messages[i..][1..] == messages[i + 1..];
      if tailTokens + msgTokens > available {
        assert LongestFit(messages, maxTokens, keepFrom);
        break;
      }
      tailTokens := tailTokens + msgTokens;
      keepFrom := i;
    }
    assert LongestFit(messages, maxTokens, keepFrom);
    if keepFrom <= KEEP_PREFIX {
      return messages;
    }
    var trimCount := keepFrom - KEEP_PREFIX;
    var trimmedTokens := Total(messages[KEEP_PREFIX..keepFrom]);
    out := messages[..KEEP_PREFIX] + messages[keepFrom..];
    out := out[..KEEP_PREFIX] + [Summary(trimCount, trimmedTokens)] + out[KEEP_PREFIX..];
    assert out == CutAt(messages, keepFrom);
  }

  /** Where the scan from the end stops: the first message from `k` backwards that no longer fits. */
  function KeepFrom(ms: seq<Message>, available: nat, k: nat): nat
    requires KEEP_PREFIX <= k <= |ms|
  {
    if k == KEEP_PREFIX || Total(ms[k - 1..]) > available then k else KeepFrom(ms, available, k - 1)
  }

  lemma {:induction false} KeepFromFits(ms: seq<Message>, available: nat, k: nat)
    requires KEEP_PREFIX <= k <= |ms| && Total(ms[k..]) <= available
    ensures var j := KeepFrom(ms, available, k);
      KEEP_PREFIX <= j <= k && Total(ms[j..]) <= available && (j > KEEP_PREFIX ==> Total(ms[j - 1..]) > available)
  {
    if k > KEEP_PREFIX && Total(ms[k - 1..]) <= available {
      KeepFromFits(ms, available, k - 1);
    }
  }

  /** What the trim makes of a list, as a function. */
  function TrimTo(ms: seq<Message>, maxTokens: nat): (out: seq<Message>)
    ensures Trimmed(ms, maxTokens, out)
  {
    if |ms| <= KEEP_PREFIX then ms
    else
      KeepFromFits(ms, Available(ms, maxTokens), |ms|);
      CutAt(ms, KeepFrom(ms, Available(ms, maxTokens), |ms|))
  }

  // ---- Sums ----

  lemma {:induction false} TotalConcat(a: seq<Message>, b: seq<Message>)
    ensures Total(a + b) == Total(a) + Total(b)
  {
    if a == [] {
      assert a + b == b;
    } else {
      TotalConcat(a[1..], b);
      assert (a + b)[1..] == a[1..] + b;
    }
  }

  /** Longer suffixes cost strictly more. */
  lemma SuffixGrows(ms: seq<Message>, i: nat, j: nat)
    requires i < j <= |ms|
    ensures Total(ms[i..]) > Total(ms[j..])
  {
    assert ms[i..] == ms[i..j] + ms[j..];
    TotalConcat(ms[i..j], ms[j..]);
  }

  lemma TotalThree(a: seq<Message>, b: seq<Message>, c: seq<Message>)
    ensures Total(a + b + c) == Total(a) + Total(b) + Total(c)
  {
    TotalConcat(a + b, c);
    TotalConcat(a, b);
  }

  /** Totals before and after a cut, in terms of the prefix, what was cut out and what was kept. */
  lemma CutTotals(ms: seq<Message>, k: nat)
    requires KEEP_PREFIX < k <= |ms|
    ensures var removed := Total(ms[KEEP_PREFIX..k]);
      Total(ms) == Total(ms[..KEEP_PREFIX]) + removed + Total(ms[k..]) &&
      Total(CutAt(ms, k))
        == Total(ms[..KEEP_PREFIX]) + EstimateTokens(Summary(k - KEEP_PREFIX, removed).content) + Total(ms[k..])
  {
    hide Summary, EstimateTokens, Total;
    var a, b, c := ms[..KEEP_PREFIX], ms[KEEP_PREFIX..k], ms[k..];
    assert ms == a + b + c;
    assert Total(ms) == Total(a) + Total(b) + Total(c) by {
      TotalThree(a, b, c);
    }
    var s := Summary(k - KEEP_PREFIX, Total(b));
    assert Total(a + [s] + c) == Total(a) + EstimateTokens(s.content) + Total(c) by {
      TotalOne(s);
      TotalThree(a, [s], c);
    }
  }

  lemma TotalOne(m: Message)
    ensures Total([m]) == EstimateTokens(m.content)
  {
    assert [m][1..] == [];
  }

  // ---- Main results ----

  /** The suffixes that fit are exactly those starting at the cut or later, so the cut is unique. */
  lemma FitsExactlyFromCut(ms: seq<Message>, maxTokens: nat, k: nat, j: nat)
    requires LongestFit(ms, maxTokens, k) && KEEP_PREFIX <= j <= |ms|
    ensures Total(ms[j..]) <= Available(ms, maxTokens) <==> k <= j
  {
    if k < j { SuffixGrows(ms, k, j); }
    if j < k - 1 { SuffixGrows(ms, j, k - 1); }
  }

  lemma TrimDeterministic(ms: seq<Message>, maxTokens: nat, out: seq<Message>, out': seq<Message>)
    requires Trimmed(ms, maxTokens, out) && Trimmed(ms, maxTokens, out')
    ensures out == out'
  {
    hide Total, Summary;
    if |ms| > KEEP_PREFIX {
      var k :| LongestFit(ms, maxTokens, k) && out == CutAt(ms, k);
      var k' :| LongestFit(ms, maxTokens, k') && out' == CutAt(ms, k');
      CutUnique(ms, maxTokens, k, k');
    }
  }

  lemma CutUnique(ms: seq<Message>, maxTokens: nat, k: int, k': int)
    requires LongestFit(ms, maxTokens, k) && LongestFit(ms, maxTokens, k')
    ensures k == k'
  {
    FitsExactlyFromCut(ms, maxTokens, k, k');
    FitsExactlyFromCut(ms, maxTokens, k', k);
  }

  /** Trimming keeps the system prompt and the goal, never lengthens the list, and holds the total to the
      budget (or to the prefix, when that alone is over) plus the estimate of the summary it put in. */
  lemma TrimBounds(ms: seq<Message>, maxTokens: nat, out: seq<Message>)
    requires |ms| > KEEP_PREFIX && Trimmed(ms, maxTokens, out)
    ensures KEEP_PREFIX < |out| <= |ms| && out[..KEEP_PREFIX] == ms[..KEEP_PREFIX]
    ensures var bound := if maxTokens >= Total(ms[..KEEP_PREFIX]) then maxTokens else Total(ms[..KEEP_PREFIX]);
      if Total(ms[KEEP_PREFIX..]) <= Available(ms, maxTokens) then out == ms && Total(out) <= bound
      else Total(out) <= bound + EstimateTokens(out[KEEP_PREFIX].content)
  {
    hide Summary, EstimateTokens;
    var k :| LongestFit(ms, maxTokens, k) && out == CutAt(ms, k);
    FitsExactlyFromCut(ms, maxTokens, k, KEEP_PREFIX);
    if k == KEEP_PREFIX {
      assert ms == ms[..KEEP_PREFIX] + ms[KEEP_PREFIX..];
      TotalConcat(ms[..KEEP_PREFIX], ms[KEEP_PREFIX..]);
    } else {
      CutTotals(ms, k);
      assert out[KEEP_PREFIX] == Summary(k - KEEP_PREFIX, Total(ms[KEEP_PREFIX..k]));
    }
  }

  /** Behind the prefix there is no more than what it leaves of the budget, but for a summary in front. */
  ghost predicate Fitted(ms: seq<Message>, maxTokens: nat) {
    |ms| <= KEEP_PREFIX || Total(ms[KEEP_PREFIX..]) <= Available(ms, maxTokens)
    || (Total(ms[KEEP_PREFIX + 1..]) <= Available(ms, maxTokens)
        && exists count, tokens :: ms[KEEP_PREFIX] == Summary(count, tokens))
  }

  lemma TrimmedIsFitted(ms: seq<Message>, maxTokens: nat, out: seq<Message>)
    requires Trimmed(ms, maxTokens, out)
    ensures Fitted(out, maxTokens)
  {
    hide Total, Summary, Available;
    if |ms| > KEEP_PREFIX {
      var k :| LongestFit(ms, maxTokens, k) && out == CutAt(ms, k);
      if k > KEEP_PREFIX {
        CutFits(ms, maxTokens, k);
        assert out[KEEP_PREFIX] == Summary(k - KEEP_PREFIX, Total(ms[KEEP_PREFIX..k]));
      }
    }
  }

  /** What fits so is held to the budget, or to the prefix when that alone is over, plus the summary. */
  lemma FittedBound(ms: seq<Message>, maxTokens: nat)
    requires |ms| > KEEP_PREFIX && Fitted(ms, maxTokens)
    ensures var bound := if maxTokens >= Total(ms[..KEEP_PREFIX]) then maxTokens else Total(ms[..KEEP_PREFIX]);
      Total(ms) <= bound + EstimateTokens(ms[KEEP_PREFIX].content)
  {
    hide Summary, EstimateTokens, Total;
    var a, b, c := ms[..KEEP_PREFIX], [ms[KEEP_PREFIX]], ms[KEEP_PREFIX + 1..];
    assert ms == a + b + c && ms[KEEP_PREFIX..] == b + c;
    TotalThree(a, b, c);
    TotalConcat(b, c);
    TotalOne(ms[KEEP_PREFIX]);
  }

  /** The newest message survives exactly when it fits in what the prefix leaves. */
  lemma NewestKeptIffItFits(ms: seq<Message>, maxTokens: nat, k: nat)
    requires |ms| > KEEP_PREFIX && LongestFit(ms, maxTokens, k)
    ensures k < |ms| <==> EstimateTokens(ms[|ms| - 1].content) <= Available(ms, maxTokens)
  {
    FitsExactlyFromCut(ms, maxTokens, k, |ms| - 1);
    assert ms[|ms| - 1..] == [ms[|ms| - 1]];
  }

  /** What the summary of `count` messages worth `tokens` is estimated at. */
  function SummaryCost(count: nat, tokens: nat): nat {
    (78 + |Decimal(count)| + |Decimal(tokens)|) / 4 + 4
  }

  /** The summary tells the model how many messages are gone, and then what they were estimated at. */
  lemma SummaryTells(count: nat, tokens: nat)
    ensures Summary(count, tokens).role == "user"
    ensures At(Summary(count, tokens).content, "[Context trimmed: " + Decimal(count) + " earlier messages", 0)
    ensures At(Summary(count, tokens).content, "(~" + Decimal(tokens) + " tokens)", 36 + |Decimal(count)|)
  {
    hide Decimal;
    assert " earlier messages (~"[18..] == "(~" && " tokens) removed to save context window]"[..8] == " tokens)";
    FiveParts("[Context trimmed: ", Decimal(count), " earlier messages (~", Decimal(tokens),
              " tokens) removed to save context window]");
  }

  /** Where the first and the second number stand with what is around them. */
  lemma FiveParts(a: string, b: string, c: string, d: string, e: string)
    requires |a| == 18 && |c| == 20 && |e| == 40
    ensures At(a + b + c + d + e, a + b + c[..17], 0)
    ensures At(a + b + c + d + e, c[18..] + d + e[..8], 36 + |b|)
  {
    var s := a + b + c + d + e;
    assert s[0..|a + b + c[..17]|] == a + b + c[..17];
    assert s[36 + |b|..36 + |b| + |c[18..] + d + e[..8]|] == c[18..] + d + e[..8];
  }

  /** Whenever something is cut out, the message in its place tells how many messages are gone from the list and what
      they were estimated at. */
  lemma TrimTellsWhatIsGone(ms: seq<Message>, maxTokens: nat, out: seq<Message>)
    requires |ms| > KEEP_PREFIX && Trimmed(ms, maxTokens, out) && out != ms
    ensures KEEP_PREFIX < |out| <= |ms|
    ensures var gone, tokens := |ms| - |out| + 1, Total(ms) - Total(out[..KEEP_PREFIX]) - Total(out[KEEP_PREFIX + 1..]);
      tokens >= 0 && out[KEEP_PREFIX].role == "user"
      && At(out[KEEP_PREFIX].content, "[Context trimmed: " + Decimal(gone) + " earlier messages", 0)
      && At(out[KEEP_PREFIX].content, "(~" + Decimal(tokens) + " tokens)", 36 + |Decimal(gone)|)
  {
    hide Summary, Total, EstimateTokens, Decimal;
    var k :| LongestFit(ms, maxTokens, k) && out == CutAt(ms, k);
    CutTotals(ms, k);
    SummaryTells(k - KEEP_PREFIX, Total(ms[KEEP_PREFIX..k]));
    assert out[..KEEP_PREFIX] == ms[..KEEP_PREFIX] && out[KEEP_PREFIX + 1..] == ms[k..];
  }

  lemma SummaryCosts(count: nat, tokens: nat)
    ensures EstimateTokens(Summary(count, tokens).content) == SummaryCost(count, tokens)
  {
  }

  /** "To stay within a token budget" holds exactly when nothing had to go, or prefix, summary and kept suffix fit
      together; the scan makes room for prefix and suffix only. */
  lemma StaysWithinBudgetIff(ms: seq<Message>, maxTokens: nat, k: nat)
    requires |ms| > KEEP_PREFIX && LongestFit(ms, maxTokens, k)
    ensures Total(CutAt(ms, k)) <= maxTokens
       <==> k == KEEP_PREFIX
            || Total(ms[..KEEP_PREFIX]) + SummaryCost(k - KEEP_PREFIX, Total(ms[KEEP_PREFIX..k])) + Total(ms[k..])
               <= maxTokens
    ensures k == KEEP_PREFIX <==> Total(ms) <= maxTokens
  {
    hide Summary, SummaryCost, EstimateTokens;
    assert ms == ms[..KEEP_PREFIX] + ms[KEEP_PREFIX..];
    TotalConcat(ms[..KEEP_PREFIX], ms[KEEP_PREFIX..]);
    TotalAtLeast(ms[KEEP_PREFIX..]);
    FitsExactlyFromCut(ms, maxTokens, k, KEEP_PREFIX);
    if k > KEEP_PREFIX {
      CutTotals(ms, k);
      SummaryCosts(k - KEEP_PREFIX, Total(ms[KEEP_PREFIX..k]));
    }
  }

  /** Every message costs four tokens at least. */
  lemma {:induction false} TotalAtLeast(ms: seq<Message>)
    ensures Total(ms) >= 4 * |ms|
  {
    if ms != [] {
      TotalAtLeast(ms[1..]);
    }
  }

  lemma {:induction false} DecimalLength(n: nat)
    ensures 1 <= |Decimal(n)| <= n / 10 + 1
    ensures n < 10 ==> |Decimal(n)| == 1
  {
    if n >= 10 {
      DecimalLength(n / 10);
    }
  }

  /** A summary costs twenty-four tokens at the least, and never more than that or what it stands for. */
  lemma SummaryCostBounds(count: nat, tokens: nat)
    requires 4 * count <= tokens
    ensures 24 <= SummaryCost(count, tokens)
    ensures SummaryCost(count, tokens) > tokens <==> tokens < 24
  {
    DecimalLength(count);
    DecimalLength(tokens);
    assert |Decimal(count)| <= tokens / 40 + 1;
  }

  /** Trimming raises the total exactly when what it cuts out costs less than twenty-four tokens. */
  lemma TotalRaisedIffLittleIsCut(ms: seq<Message>, k: nat)
    requires KEEP_PREFIX < k <= |ms|
    ensures Total(CutAt(ms, k)) > Total(ms) <==> Total(ms[KEEP_PREFIX..k]) < 24
  {
    hide Summary, SummaryCost, EstimateTokens;
    var removed := Total(ms[KEEP_PREFIX..k]);
    CutTotals(ms, k);
    SummaryCosts(k - KEEP_PREFIX, removed);
    TotalAtLeast(ms[KEEP_PREFIX..k]);
    SummaryCostBounds(k - KEEP_PREFIX, removed);
  }

  /** A text that is estimated at `tokens`. */
  function TextWorth(tokens: nat): (r: string)
    requires tokens >= 4
    ensures EstimateTokens(r) == tokens
  {
    seq(4 * (tokens - 4), _ => 'x')
  }

  /** At every budget worth the name, the loop's among them: a prefix that just fills the budget and one short message
      behind it. The message is dropped although it is the newest, and the total rises above the budget. */
  lemma TrimCanDropNewestAndRaiseTotal(maxTokens: nat, goal: string)
    requires maxTokens >= EstimateTokens(goal) + 4
    ensures exists ms: seq<Message>, out ::
      |ms| == 3 && ms[1].content == goal && Total(ms[..KEEP_PREFIX]) <= maxTokens && Trimmed(ms, maxTokens, out)
      && ms[2] !in out && Total(out) > Total(ms) > maxTokens
  {
    hide Summary, EstimateTokens;
    var prompt := TextWorth(maxTokens - EstimateTokens(goal));
    var ms := [Message("system", prompt), Message("user", goal), Message("assistant", "")];
    var out := CutAt(ms, 3);
    ThreeTotals(ms);
    EmptyTextCosts();
    assert LongestFit(ms, maxTokens, 3) && Trimmed(ms, maxTokens, out);
    TotalRaisedIffLittleIsCut(ms, 3);
    SummarySays(1, 4);
    assert out == [ms[0], ms[1], Summary(1, 4)];
  }

  /** With the prefix well inside the budget and the newest message kept, the total can still end above the budget:
      the newest message takes all the room there is, and the summary of the one before it comes on top. */
  lemma TrimCanExceedBudget(maxTokens: nat, prompt: string, goal: string)
    requires maxTokens >= EstimateTokens(prompt) + EstimateTokens(goal) + 4
    ensures exists ms: seq<Message>, out ::
      |ms| == 4 && ms[0].content == prompt && ms[1].content == goal && Trimmed(ms, maxTokens, out)
      && ms[3] in out && Total(out) == maxTokens + 24
  {
    hide Summary, EstimateTokens;
    var room := maxTokens - EstimateTokens(prompt) - EstimateTokens(goal);
    var newest := Message("user", TextWorth(room));
    var ms := [Message("system", prompt), Message("user", goal), Message("assistant", ""), newest];
    var out := CutAt(ms, 3);
    FourTotals(ms);
    EmptyTextCosts();
    assert LongestFit(ms, maxTokens, 3) && Trimmed(ms, maxTokens, out);
    CutTotals(ms, 3);
    SummarySays(1, 4);
    assert out == [ms[0], ms[1], Summary(1, 4), ms[3]];
  }

  lemma EmptyTextCosts()
    ensures EstimateTokens("") == 4
  {
  }

  lemma SummarySays(count: nat, tokens: nat)
    ensures Summary(count, tokens).content != ""
    ensures count < 10 && tokens < 10 ==> EstimateTokens(Summary(count, tokens).content) == 24
  {
    SummaryCosts(count, tokens);
  }

  lemma ThreeTotals(ms: seq<Message>)
    requires |ms| == 3
    ensures Total(ms[..2]) == EstimateTokens(ms[0].content) + EstimateTokens(ms[1].content)
    ensures Total(ms[2..]) == Total(ms[2..3]) == EstimateTokens(ms[2].content) && Total(ms[3..]) == 0
    ensures Total(ms) == Total(ms[..2]) + Total(ms[2..])
  {
    hide EstimateTokens;
    assert ms[..2] == [ms[0]] + [ms[1]] && ms[2..] == ms[2..3] == [ms[2]] && ms == ms[..2] + ms[2..];
    TotalOne(ms[0]);
    TotalOne(ms[1]);
    TotalOne(ms[2]);
    TotalConcat([ms[0]], [ms[1]]);
    TotalConcat(ms[..2], ms[2..]);
  }

  lemma FourTotals(ms: seq<Message>)
    requires |ms| == 4
    ensures Total(ms[..2]) == EstimateTokens(ms[0].content) + EstimateTokens(ms[1].content)
    ensures Total(ms[2..3]) == EstimateTokens(ms[2].content) && Total(ms[3..]) == EstimateTokens(ms[3].content)
    ensures Total(ms[2..]) == Total(ms[2..3]) + Total(ms[3..])
  {
    hide EstimateTokens;
    var three := ms[..3];
    ThreeTotals(three);
    assert three[..2] == ms[..2] && three[2..3] == ms[2..3] && ms[3..] == [ms[3]] && ms[2..] == ms[2..3] + ms[3..];
    TotalOne(ms[3]);
    TotalConcat(ms[2..3], ms[3..]);
  }

  /** Trimming again with the same budget can change nothing but the summary. */
  lemma RetrimTouchesOnlySummary(ms: seq<Message>, maxTokens: nat, out: seq<Message>, again: seq<Message>)
    requires Trimmed(ms, maxTokens, out) && Trimmed(out, maxTokens, again)
    ensures |again| == |out|
    ensures forall i :: 0 <= i < |out| && i != KEEP_PREFIX ==> again[i] == out[i]
  {
    if |ms| > KEEP_PREFIX {
      hide Total, Summary, Available, CutAt;
      var k :| LongestFit(ms, maxTokens, k) && out == CutAt(ms, k);
      var k' :| LongestFit(out, maxTokens, k') && again == CutAt(out, k');
      if k == KEEP_PREFIX {
        NoCut(ms);
        CutUnique(ms, maxTokens, k, k');
      } else {
        CutFits(ms, maxTokens, k);
        FitsExactlyFromCut(out, maxTokens, k', KEEP_PREFIX + 1);
        ReplacesOnlySummary(out, k');
      }
    }
  }

  /** Cutting right behind the prefix, or one message further, changes at most that message. */
  lemma ReplacesOnlySummary(ms: seq<Message>, k: nat)
    requires KEEP_PREFIX <= k <= KEEP_PREFIX + 1 && KEEP_PREFIX < |ms|
    ensures |CutAt(ms, k)| == |ms|
    ensures forall i :: 0 <= i < |ms| && i != KEEP_PREFIX ==> CutAt(ms, k)[i] == ms[i]
  {
    hide Total, Summary;
  }

  lemma NoCut(ms: seq<Message>)
    requires KEEP_PREFIX <= |ms|
    ensures CutAt(ms, KEEP_PREFIX) == ms
  {
  }

  /** After a cut, everything behind the summary fits. */
  lemma CutFits(ms: seq<Message>, maxTokens: nat, k: nat)
    requires LongestFit(ms, maxTokens, k) && k > KEEP_PREFIX
    ensures KEEP_PREFIX < |CutAt(ms, k)|
    ensures Total(CutAt(ms, k)[KEEP_PREFIX + 1..]) <= Available(CutAt(ms, k), maxTokens)
  {
    assert CutAt(ms, k)[KEEP_PREFIX + 1..] == ms[k..];
    assert CutAt(ms, k)[..KEEP_PREFIX] == ms[..KEEP_PREFIX];
  }
}
