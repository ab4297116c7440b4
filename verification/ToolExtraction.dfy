/** Merging structured and textual tool calls (crates/orion-api/src/tool_extraction.rs). */
module ToolExtraction {
  import opened Text
  import opened ToolBlocks

  /** A structured call as the provider returns it: its arguments are still text. */
  datatype RawCall = RawCall(id: string, name: string, arguments: string)

  datatype Completion = Completion(content: string, toolCalls: Option<seq<RawCall>>)

  datatype ToolCall = ToolCall(id: string, name: string, arguments: Json, structured: bool)

  /** JSON text decoders, for call arguments and for whole requests. */
  datatype Decoders = Decoders(arguments: string -> Option<Json>, request: Decoder)

  function AsRequest(c: ToolCall): Request {
    Request(c.name, c.arguments)
  }

  function Requests(calls: seq<ToolCall>): (r: seq<Request>)
    ensures |r| == |calls|
  {
    seq(|calls|, i requires 0 <= i < |calls| => AsRequest(calls[i]))
  }

  function Structured(d: Decoders, raw: RawCall): ToolCall {
    var args := match d.arguments(raw.arguments) case Some(v) => v case None => Obj(map[]);
    ToolCall(raw.id, raw.name, args, true)
  }

  /** The provider's own calls. */
  function RawCalls(response: Completion): seq<RawCall> {
    match response.toolCalls
    case None => []
    case Some(raws) => raws
  }

  function StructuredCalls(d: Decoders, response: Completion): seq<ToolCall> {
    var raws := RawCalls(response);
    seq(|raws|, i requires 0 <= i < |raws| => Structured(d, raws[i]))
  }

  /** The call is the provider's: its id, its name, its arguments decoded, or none where they cannot be decoded. */
  predicate CarriesRaw(d: Decoders, raw: RawCall, call: ToolCall) {
    call.id == raw.id && call.name == raw.name && call.structured
    && (d.arguments(raw.arguments).Some? ==> Some(call.arguments) == d.arguments(raw.arguments))
    && (d.arguments(raw.arguments).None? ==> call.arguments == Obj(map[]))
  }

  /** A request is what the provider asked for in its `i`-th call. */
  predicate AskedFor(d: Decoders, response: Completion, i: int, r: Request) {
    0 <= i < |RawCalls(response)|
    && r.name == RawCalls(response)[i].name
    && (d.arguments(RawCalls(response)[i].arguments) == Some(r.arguments)
        || (d.arguments(RawCalls(response)[i].arguments).None? && r.arguments == Obj(map[])))
  }

  /** The requests not met before, each at its first occurrence. */
  function FirstOccurrences(seen: seq<Request>, rs: seq<Request>): seq<Request>
    decreases |rs|
  {
    if rs == [] then []
    else if rs[0] in seen then FirstOccurrences(seen, rs[1..])
    else [rs[0]] + FirstOccurrences(seen + [rs[0]], rs[1..])
  }

  /** Calls from text carry gapless ids text-0, text-1, … */
  ghost predicate NumberedFrom(calls: seq<ToolCall>, start: nat) {
    forall i :: start <= i < |calls| ==> calls[i].id == "text-" + Decimal(i - start) && !calls[i].structured
  }

  method ExtractToolCalls(d: Decoders, response: Completion) returns (cleanContent: string, calls: seq<ToolCall>)
    ensures cleanContent == Parsed(response.content, d.request).0
    ensures |RawCalls(response)| <= |calls|
    ensures forall i :: 0 <= i < |RawCalls(response)| ==> CarriesRaw(d, RawCalls(response)[i], calls[i])
    ensures NumberedFrom(calls, |RawCalls(response)|)
    ensures Requests(calls) == MergedRequests(d, response)
  {
    calls := [];
    if response.toolCalls.Some? {
      var raws := response.toolCalls.value;
      for i := 0 to |raws|
        invariant calls == StructuredCalls(d, response)[..i]
      {
        calls := calls + [Structured(d, raws[i])];
      }
    }
    assert calls == StructuredCalls(d, response);
    ghost var structured := calls;
    assert forall i :: 0 <= i < |structured| ==> CarriesRaw(d, RawCalls(response)[i], structured[i]);
    var text, textCalls := ParseToolRequests(response.content, d.request);
    cleanContent := text;
    calls := AddTextCalls(calls, textCalls);
  }

  /** The second loop: textual requests that no call so far equals in name and arguments. */
  method AddTextCalls(structured: seq<ToolCall>, textCalls: seq<Request>) returns (calls: seq<ToolCall>)
    ensures structured <= calls && NumberedFrom(calls, |structured|)
    ensures Requests(calls) == Requests(structured) + FirstOccurrences(Requests(structured), textCalls)
  {
    calls := structured;
    var legacyIdx := 0;
    ghost var want := Requests(structured) + FirstOccurrences(Requests(structured), textCalls);
    assert textCalls[0..] == textCalls;
    for i := 0 to |textCalls|
      invariant structured <= calls && |calls| == |structured| + legacyIdx
      invariant NumberedFrom(calls, |structured|)
      invariant Requests(calls) + FirstOccurrences(Requests(calls), textCalls[i..]) == want
    {
      var tr := textCalls[i];
      var dominated := exists j :: 0 <= j < |calls| && calls[j].name == tr.name && calls[j].arguments == tr.arguments;
      SeenIffDominated(calls, tr);
      FirstOccurrencesStep(Requests(calls), textCalls, i);
      if !dominated {
        var call := ToolCall("text-" + Decimal(legacyIdx), tr.name, tr.arguments, false);
        assert Requests(calls + [call]) == Requests(calls) + [tr];
        calls := calls + [call];
        legacyIdx := legacyIdx + 1;
      }
    }
    assert FirstOccurrences(Requests(calls), textCalls[|textCalls|..]) == [];
  }

  lemma FirstOccurrencesStep(seen: seq<Request>, rs: seq<Request>, i: nat)
    requires i < |rs|
    ensures seen + FirstOccurrences(seen, rs[i..])
         == (if rs[i] in seen then seen + FirstOccurrences(seen, rs[i + 1..])
             else (seen + [rs[i]]) + FirstOccurrences(seen + [rs[i]], rs[i + 1..]))
  {
    assert rs[i..][1..] == rs[i + 1..];
  }

  lemma SeenIffDominated(calls: seq<ToolCall>, tr: Request)
    ensures tr in Requests(calls)
       <==> exists j :: 0 <= j < |calls| && calls[j].name == tr.name && calls[j].arguments == tr.arguments
  {
    var rs := Requests(calls);
    if j :| 0 <= j < |calls| && calls[j].name == tr.name && calls[j].arguments == tr.arguments {
      assert rs[j] == tr;
    }
  }

  /** What the merge amounts to: all structured calls, then the textual ones not met before. */
  function MergedRequests(d: Decoders, response: Completion): seq<Request> {
    var structured := Requests(StructuredCalls(d, response));
    structured + FirstOccurrences(structured, Parsed(response.content, d.request).1)
  }

  // ---- Main results ----

  /** First occurrences: nothing is lost, nothing foreign is added, and nothing is taken twice. */
  lemma {:induction false} FirstOccurrencesFacts(seen: seq<Request>, rs: seq<Request>)
    ensures forall r :: r in seen || r in rs <==> r in seen || r in FirstOccurrences(seen, rs)
    ensures forall r :: r in FirstOccurrences(seen, rs) ==> r in rs && r !in seen
    ensures forall i, j :: 0 <= i < j < |FirstOccurrences(seen, rs)| ==>
      FirstOccurrences(seen, rs)[i] != FirstOccurrences(seen, rs)[j]
    decreases |rs|
  {
    if rs != [] {
      assert rs == [rs[0]] + rs[1..];
      if rs[0] in seen {
        FirstOccurrencesFacts(seen, rs[1..]);
      } else {
        var later := FirstOccurrences(seen + [rs[0]], rs[1..]);
        FirstOccurrencesFacts(seen + [rs[0]], rs[1..]);
        forall j | 0 <= j < |later| ensures later[j] != rs[0] {
          assert later[j] in later;
        }
      }
    }
  }

  /** First occurrences keep their order: more requests only add to what the first ones come to. */
  lemma {:induction false} FirstOccurrencesGrow(seen: seq<Request>, rs: seq<Request>, more: seq<Request>)
    ensures FirstOccurrences(seen, rs) <= FirstOccurrences(seen, rs + more)
    decreases |rs|
  {
    if rs != [] {
      assert (rs + more)[1..] == rs[1..] + more;
      FirstOccurrencesGrow(if rs[0] in seen then seen else seen + [rs[0]], rs[1..], more);
    }
  }

  /** The merge loses no (name, arguments) pair of either source, invents none, keeps the provider's calls first and in
      order, and repeats no textual one. */
  lemma MergeIsLossless(d: Decoders, response: Completion)
    ensures var n := |RawCalls(response)|;
      var textual := Parsed(response.content, d.request).1;
      var merged := MergedRequests(d, response);
      n <= |merged|
      && (forall i :: 0 <= i < n ==> AskedFor(d, response, i, merged[i]))
      && (forall r :: r in merged <==> r in textual || exists i :: AskedFor(d, response, i, r))
      && (forall i, j :: 0 <= i < j < |merged| && n <= j ==> merged[i] != merged[j])
  {
    var structured := Requests(StructuredCalls(d, response));
    var textual := Parsed(response.content, d.request).1;
    FirstOccurrencesFacts(structured, textual);
    var added := FirstOccurrences(structured, textual);
    var merged := MergedRequests(d, response);
    assert merged == structured + added;
    forall i, j | 0 <= i < j < |merged| && |structured| <= j ensures merged[i] != merged[j] {
      assert merged[j] == added[j - |structured|];
      if i < |structured| { assert merged[i] in structured && merged[j] in added; }
    }
    forall i | 0 <= i < |structured| ensures AskedFor(d, response, i, merged[i]) && merged[i] == structured[i] {
    }
    forall r | exists i :: AskedFor(d, response, i, r) ensures r in merged {
      var i :| AskedFor(d, response, i, r);
      assert structured[i] == r;
    }
  }

  /** Ids given to textual calls are pairwise distinct. */
  lemma TextIdsDistinct(calls: seq<ToolCall>, start: nat, i: nat, j: nat)
    requires NumberedFrom(calls, start) && start <= i < j < |calls|
    ensures calls[i].id != calls[j].id
  {
    if calls[i].id == calls[j].id {
      assert calls[i].id[5..] == Decimal(i - start) && calls[j].id[5..] == Decimal(j - start);
      DecimalInjective(i - start, j - start);
    }
  }
}
