/** Attachment context for a chat turn (crates/orion-api/src/chat_attachments.rs). */
module Attachments {
  import opened Text

  const MAX_ATTACHMENTS_PER_CHAT: nat := 8
  const PER_ATTACHMENT: nat := 12_000
  const CAP: nat := 48_000
  const OMITTED: string := "Context omitted due to total attachment context cap."

  datatype Entry = Entry(id: string, context: string)

  /** Trimmed, non-empty, each at its first occurrence. */
  function Normalized(raw: seq<string>): seq<string> {
    if raw == [] then []
    else
      var before := Normalized(raw[..|raw| - 1]);
      var id := Trim(raw[|raw| - 1]);
      if id == "" || id in before then before else before + [id]
  }

  method NormalizeAttachmentIds(raw: seq<string>) returns (out: seq<string>)
    ensures out == Normalized(raw)
  {
    var seen: set<string> := {};
    out := [];
    for i := 0 to |raw|
      invariant out == Normalized(raw[..i])
      invariant forall id :: id in seen <==> id in out
    {
      var trimmed := Trim(raw[i]);
      assert raw[..i + 1][..i] == raw[..i];
      if trimmed != "" && trimmed !in seen {
        seen := seen + {trimmed};
        out := out + [trimmed];
      }
    }
    assert raw[..|raw|] == raw;
  }

  /** No id twice, none empty, and none but those given. */
  lemma {:induction false} NormalizedFacts(raw: seq<string>)
    ensures forall i, j :: 0 <= i < j < |Normalized(raw)| ==> Normalized(raw)[i] != Normalized(raw)[j]
    ensures forall id :: id in Normalized(raw) <==> id != "" && exists k :: 0 <= k < |raw| && Trim(raw[k]) == id
  {
    if raw != [] {
      var before, last := raw[..|raw| - 1], raw[|raw| - 1];
      NormalizedFacts(before);
      forall id | id != "" && exists k :: 0 <= k < |raw| && Trim(raw[k]) == id ensures id in Normalized(raw) {
        var k :| 0 <= k < |raw| && Trim(raw[k]) == id;
        if k < |before| { assert Trim(before[k]) == id; }
      }
      forall id | id in Normalized(raw) ensures exists k :: 0 <= k < |raw| && Trim(raw[k]) == id {
        if id in Normalized(before) {
          var k :| 0 <= k < |before| && Trim(before[k]) == id;
          assert Trim(raw[k]) == id;
        } else {
          assert Trim(raw[|raw| - 1]) == id;
        }
      }
    }
  }

  /** What the `total` used so far leaves of one text. */
  function Admitted(total: nat, text: string): string {
    var context := Truncated(text, PER_ATTACHMENT);
    if total >= CAP then OMITTED
    else if total + |context| > CAP then Truncated(context, CAP - total)
    else context
  }

  function Total(entries: seq<Entry>): nat {
    if entries == [] then 0 else Total(entries[..|entries| - 1]) + |entries[|entries| - 1].context|
  }

  /** Entries for the texts of `ids`, each cut to what the ones before it left. */
  function Assembled(ids: seq<string>, texts: map<string, string>): seq<Entry>
    requires forall id :: id in ids ==> id in texts
  {
    if ids == [] then []
    else
      var before := Assembled(ids[..|ids| - 1], texts);
      var id := ids[|ids| - 1];
      before + [Entry(id, Admitted(Total(before), texts[id]))]
  }

  /** `known` are the indexed attachments, `texts` the extractions that can be read and decoded. */
  method LoadAttachmentContext(raw: seq<string>, known: set<string>, texts: map<string, string>)
    returns (r: Result<seq<Entry>, string>)
    ensures r.Ok? <==>
      |Normalized(raw)| <= MAX_ATTACHMENTS_PER_CHAT
      && forall id :: id in Normalized(raw) ==> id in known && id in texts
    ensures r.Ok? ==> r.value == Assembled(Normalized(raw), texts)
  {
    var ids := NormalizeAttachmentIds(raw);
    if ids == [] {
      return Ok([]);
    }
    if |ids| > MAX_ATTACHMENTS_PER_CHAT {
      return Err("attachment validation: at most 8 attachments can be sent per chat turn");
    }
    r := LoadEach(ids, known, texts);
  }

  /** The loop over the normalized ids. */
  method LoadEach(ids: seq<string>, known: set<string>, texts: map<string, string>)
    returns (r: Result<seq<Entry>, string>)
    ensures r.Ok? <==> forall id :: id in ids ==> id in known && id in texts
    ensures r.Ok? ==> r.value == Assembled(ids, texts)
  {
    hide Assembled, Admitted, Total, Truncated;
    Nothing(texts);
    assert ids[..0] == [];
    var entries: seq<Entry> := [];
    var totalChars := 0;
    for i := 0 to |ids|
      invariant forall k :: 0 <= k < i ==> ids[k] in known && ids[k] in texts
      invariant forall id :: id in ids[..i] ==> id in texts
      invariant entries == Assembled(ids[..i], texts) && totalChars == Total(entries)
    {
      var id := ids[i];
      if id !in known {
        return Err("attachment '" + id + "' not found");
      }
      if id !in texts {
        return Err("read attachment extraction '" + id + "'");
      }
      var context := ContextFor(texts[id], totalChars);
      AssembledStep(ids, i, texts);
      TotalAppend(entries, Entry(id, context));
      totalChars := totalChars + |context|;
      entries := entries + [Entry(id, context)];
    }
    assert ids[..|ids|] == ids;
    return Ok(entries);
  }

  lemma Nothing(texts: map<string, string>)
    ensures Assembled([], texts) == [] && Total([]) == 0
  {
  }

  lemma AssembledStep(ids: seq<string>, i: nat, texts: map<string, string>)
    requires i < |ids| && ids[i] in texts && forall id :: id in ids[..i] ==> id in texts
    ensures forall id :: id in ids[..i + 1] ==> id in texts
    ensures Assembled(ids[..i + 1], texts)
         == Assembled(ids[..i], texts) + [Entry(ids[i], Admitted(Total(Assembled(ids[..i], texts)), texts[ids[i]]))]
  {
    hide Admitted, Total;
    assert ids[..i + 1] == ids[..i] + [ids[i]];
    assert ids[..i + 1][..i] == ids[..i];
  }

  method ContextFor(text: string, totalChars: nat) returns (context: string)
    ensures context == Admitted(totalChars, text)
  {
    context := TruncateChars(text, PER_ATTACHMENT);
    if totalChars >= CAP {
      context := OMITTED;
    } else if totalChars + |context| > CAP {
      context := TruncateChars(context, CAP - totalChars);
    }
  }

  lemma TotalAppend(entries: seq<Entry>, e: Entry)
    ensures Total(entries + [e]) == Total(entries) + |e.context|
  {
    assert (entries + [e])[..|entries|] == entries;
  }

  /** At the cap a text adds the note. Below it, it adds itself, cut to the per-attachment limit, as long as
      that fits; otherwise it goes past the cap by exactly a marker. */
  lemma AdmittedLength(total: nat, text: string)
    ensures total >= CAP ==> |Admitted(total, text)| == |OMITTED|
    ensures total < CAP ==> |Truncated(text, PER_ATTACHMENT)| <= PER_ATTACHMENT + |TRUNCATED|
    ensures total < CAP && total + |Truncated(text, PER_ATTACHMENT)| <= CAP ==>
      Admitted(total, text) == Truncated(text, PER_ATTACHMENT)
    ensures total < CAP && total + |Truncated(text, PER_ATTACHMENT)| > CAP ==>
      total + |Admitted(total, text)| == CAP + |TRUNCATED|
  {
  }

  /** An entry is its text, or the note, or a beginning of its text with a marker at the end: it says of a text only
      what the text says itself, and marks that something is left out. */
  lemma EntryIsBeginning(total: nat, text: string) returns (n: nat)
    ensures var entry := Admitted(total, text);
      entry == text || entry == OMITTED
      || (n < |text| && n <= PER_ATTACHMENT && n + total <= CAP && text[..n] <= entry && EndsWith(entry, TRUNCATED))
    ensures Admitted(total, text) == OMITTED && text != OMITTED ==> total >= CAP
  {
    hide TrimStart;
    var context := Truncated(text, PER_ATTACHMENT);
    n := if |text| <= PER_ATTACHMENT then |text| else PER_ATTACHMENT;
    if total < CAP && total + |context| > CAP && CAP - total < n {
      n := CAP - total;
    }
    if total < CAP && n < |text| {
      assert context[..n] == text[..n];
      var entry := Admitted(total, text);
      assert entry[..n] == text[..n];
    }
  }

  /** More ids only add to what the first ones come to. */
  lemma {:induction false} NormalizedGrows(raw: seq<string>, more: seq<string>)
    ensures Normalized(raw) <= Normalized(raw + more)
  {
    if more == [] {
      assert raw + more == raw;
    } else {
      NormalizedGrows(raw, more[..|more| - 1]);
      assert (raw + more)[..|raw + more| - 1] == raw + more[..|more| - 1];
    }
  }

  /** The context is what some total so far leaves of the text. */
  ghost predicate IsAdmitted(text: string, context: string) {
    exists total :: context == Admitted(total, text)
  }

  lemma {:induction false} EntriesFollowIds(ids: seq<string>, texts: map<string, string>)
    requires forall id :: id in ids ==> id in texts
    ensures |Assembled(ids, texts)| == |ids|
    ensures forall i :: 0 <= i < |ids| ==>
      Assembled(ids, texts)[i].id == ids[i] && IsAdmitted(texts[ids[i]], Assembled(ids, texts)[i].context)
  {
    hide Admitted, Total;
    if ids != [] {
      var before := ids[..|ids| - 1];
      EntriesFollowIds(before, texts);
      AssembledLast(ids, texts);
    }
  }

  lemma AssembledLast(ids: seq<string>, texts: map<string, string>)
    requires ids != [] && forall id :: id in ids ==> id in texts
    ensures var before := Assembled(ids[..|ids| - 1], texts);
      |Assembled(ids, texts)| == |before| + 1 && before <= Assembled(ids, texts)
      && Assembled(ids, texts)[|before|].id == ids[|ids| - 1]
      && IsAdmitted(texts[ids[|ids| - 1]], Assembled(ids, texts)[|before|].context)
  {
    hide Admitted, Total;
    var before := Assembled(ids[..|ids| - 1], texts);
    assert Assembled(ids, texts)[|before|].context == Admitted(Total(before), texts[ids[|ids| - 1]]);
  }

  /** Characters of a full text with its marker. */
  const FULL: nat := 12_015

  lemma Lengths()
    ensures |OMITTED| == 52 && |TRUNCATED| == 15 && FULL == PER_ATTACHMENT + |TRUNCATED|
  {
  }

  /** Below the cap each entry has added at most a full text and a marker, so at least four are needed to
      reach it; from there on each adds a note. */
  lemma {:induction false} TotalBounds(ids: seq<string>, texts: map<string, string>)
    requires forall id :: id in ids ==> id in texts
    ensures var total := Total(Assembled(ids, texts));
      if total < CAP then total <= FULL * |ids| else |ids| >= 4 && total <= CAP + 15 + 52 * (|ids| - 4)
  {
    hide Admitted, Total, Truncated;
    if ids == [] {
      Nothing(texts);
    } else {
      var before, text := ids[..|ids| - 1], texts[ids[|ids| - 1]];
      Lengths();
      TotalBounds(before, texts);
      TotalStep(ids, texts);
      AdmittedLength(Total(Assembled(before, texts)), text);
    }
  }

  lemma TotalStep(ids: seq<string>, texts: map<string, string>)
    requires ids != [] && forall id :: id in ids ==> id in texts
    ensures var before := Assembled(ids[..|ids| - 1], texts);
      Total(Assembled(ids, texts)) == Total(before) + |Admitted(Total(before), texts[ids[|ids| - 1]])|
  {
    var before := Assembled(ids[..|ids| - 1], texts);
    assert Assembled(ids, texts)[..|before|] == before;
  }

  /** At most eight attachments make at most 48,223 characters: the cap, one truncation marker, and four
      omission notes. */
  lemma ContextBounded(raw: seq<string>, texts: map<string, string>)
    requires |Normalized(raw)| <= MAX_ATTACHMENTS_PER_CHAT && forall id :: id in Normalized(raw) ==> id in texts
    ensures Total(Assembled(Normalized(raw), texts)) <= CAP + |TRUNCATED| + 4 * |OMITTED| == 48_223
  {
    Lengths();
    TotalBounds(Normalized(raw), texts);
  }

  /** The bound is reached by any eight attachments with more text than each may contribute. */
  lemma BoundIsReached(raw: seq<string>, texts: map<string, string>)
    requires |Normalized(raw)| == MAX_ATTACHMENTS_PER_CHAT
    requires forall id :: id in Normalized(raw) ==> id in texts && |texts[id]| > PER_ATTACHMENT
    ensures Total(Assembled(Normalized(raw), texts)) == 48_223
  {
    FullTotals(Normalized(raw), texts);
  }

  lemma {:induction false} FullTotals(ids: seq<string>, texts: map<string, string>)
    requires forall id :: id in ids ==> id in texts && |texts[id]| > PER_ATTACHMENT
    ensures Total(Assembled(ids, texts)) == if |ids| <= 3 then FULL * |ids| else CAP + 15 + 52 * (|ids| - 4)
  {
    hide Admitted, Total, Truncated;
    if ids == [] {
      Nothing(texts);
    } else {
      var before, text := ids[..|ids| - 1], texts[ids[|ids| - 1]];
      Lengths();
      FullTotals(before, texts);
      TotalStep(ids, texts);
      FullText(text);
      AdmittedLength(Total(Assembled(before, texts)), text);
    }
  }

  lemma FullText(text: string)
    requires |text| > PER_ATTACHMENT
    ensures |Truncated(text, PER_ATTACHMENT)| == FULL
  {
  }

  /** Ids that are trimmed, non-empty and distinct already stay as they are. */
  lemma {:induction false} NormalizedIdle(ids: seq<string>)
    requires forall i :: 0 <= i < |ids| ==> ids[i] != "" && Trim(ids[i]) == ids[i]
    requires forall i, j :: 0 <= i < j < |ids| ==> ids[i] != ids[j]
    ensures Normalized(ids) == ids
  {
    if ids != [] {
      NormalizedIdle(ids[..|ids| - 1]);
    }
  }

  /** There are such attachments, so 48,223 is the least bound. */
  lemma BoundIsTight() returns (raw: seq<string>, texts: map<string, string>)
    ensures |Normalized(raw)| == MAX_ATTACHMENTS_PER_CHAT && forall id :: id in Normalized(raw) ==> id in texts
    ensures Total(Assembled(Normalized(raw), texts)) == 48_223
  {
    raw := seq(8, i requires 0 <= i < 8 => ['a' + i as char]);
    texts := map id | id in raw :: seq(PER_ATTACHMENT + 1, _ => 'x');
    forall i | 0 <= i < 8 ensures Trim(raw[i]) == raw[i] {
      OneCharTrims('a' + i as char);
    }
    NormalizedIdle(raw);
    BoundIsReached(raw, texts);
  }

  lemma OneCharTrims(c: char)
    requires !IsSpace(c)
    ensures Trim([c]) == [c]
  {
  }

  /** Sum of the texts, each cut to the per-attachment limit only. */
  function Wanted(ids: seq<string>, texts: map<string, string>): nat
    requires forall id :: id in ids ==> id in texts
  {
    if ids == [] then 0
    else Wanted(ids[..|ids| - 1], texts) + |Truncated(texts[ids[|ids| - 1]], PER_ATTACHMENT)|
  }

  /** The total keeps to the cap exactly when the texts fit in it and the last one still starts below it;
      then nothing is cut beyond the per-attachment limit. */
  lemma {:induction false} WithinCapIffTextsFit(ids: seq<string>, texts: map<string, string>)
    requires forall id :: id in ids ==> id in texts
    ensures Total(Assembled(ids, texts)) <= CAP
       <==> Wanted(ids, texts) <= CAP && (ids != [] ==> Wanted(ids[..|ids| - 1], texts) < CAP)
    ensures Total(Assembled(ids, texts)) <= CAP ==> Total(Assembled(ids, texts)) == Wanted(ids, texts)
    ensures Wanted(ids, texts) >= CAP ==> Total(Assembled(ids, texts)) >= CAP
  {
    if ids != [] {
      WithinCapIffTextsFit(ids[..|ids| - 1], texts);
      TotalStep(ids, texts);
    }
  }
}
