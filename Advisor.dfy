/** The advisor client of claude_client.py: how a model reply is turned into
    a verdict dict whose "Answer" is always "yes" or "no", the thinking
    budget, and the retry policy of generate_response. The model call itself
    and the prompt text are left abstract. */
module Advisor {
  import opened Wrappers
  import opened Json
  import opened Text

  /** `json.loads`: the decoded value, or None where it raises. */
  type JsonParser = string -> Option<Value>

  /** An advisor verdict: the dict `verify_entry`/`verify_trend_touch`
      return. */
  type Verdict = map<string, Value>

  const Fence: string := "```"
  const JsonFence: string := "```json"
  const Yes: string := "yes"

  /** `ai_decision.get("Answer") == "yes"`. */
  predicate Approves(v: Verdict)
  {
    "Answer" in v && v["Answer"] == Str(Yes)
  }

  /** `ai_decision.get("Reason", default)`. */
  function ReasonOr(v: Verdict, default: Value): Value
  {
    if "Reason" in v then v["Reason"] else default
  }

  // ---------------------------------------------------------------------
  // Reply parsing
  // ---------------------------------------------------------------------

  /** "```json" starts with a fence, so a reply with "```json" has a fence. */
  lemma JsonFenceIsFence(s: string)
    ensures Contains(s, JsonFence) ==> Contains(s, Fence)
  {
    if Contains(s, JsonFence) {
      var i :| 0 <= i <= |s| - |JsonFence| && OccursAt(s, JsonFence, i);
      assert s[i..i + |Fence|] == s[i..i + |JsonFence|][..|Fence|];
      assert OccursAt(s, Fence, i);
    }
  }

  /** The text handed to `json.loads`: the segment after the first "```json"
      up to the next fence, else the segment between the first two fences,
      else the whole reply. */
  function ExtractJsonText(reply: string): (t: string)
    ensures !Contains(reply, Fence) ==> t == reply
    ensures !Contains(reply, JsonFence) && Contains(reply, Fence) ==> t == Strip(SplitSecond(reply, Fence))
    ensures Contains(reply, JsonFence) ==> t == Strip(SplitHead(SplitSecond(reply, JsonFence), Fence))
    ensures Contains(reply, Fence) ==> !Contains(t, Fence)
  {
    JsonFenceIsFence(reply);
    if Contains(reply, JsonFence) then
      var seg := SplitHead(SplitSecond(reply, JsonFence), Fence);
      StripKeepsContains(seg, Fence);
      Strip(seg)
    else if Contains(reply, Fence) then
      var seg := SplitSecond(reply, Fence);
      SplitHeadWithoutSep(seg, Fence);
      StripKeepsContains(seg, Fence);
      Strip(SplitHead(seg, Fence))
    else reply
  }

  /** `answer.lower().strip()` then `"yes" in answer`. */
  function NormalizeAnswer(answer: string): (a: string)
    ensures a == Yes <==> Contains(Lower(answer), Yes)
    ensures a == Yes || a == "no"
  {
    StripKeepsContains(Lower(answer), Yes);
    if Contains(Strip(Lower(answer)), Yes) then Yes else "no"
  }

  /** The inner `try` block: parse, check both keys, normalise "Answer".
      None where the block raises (decode error, missing key, a value that
      is not a dict, or an "Answer" that is not a string). */
  function ParsedVerdict(reply: string, parse: JsonParser): (r: Option<Verdict>)
    ensures r.Some? <==>
              var d := parse(ExtractJsonText(reply));
              d.Some? && d.value.Obj? && "Answer" in d.value.fields && "Reason" in d.value.fields &&
              d.value.fields["Answer"].Str?
    ensures r.Some? ==>
              var fields := parse(ExtractJsonText(reply)).value.fields;
              r.value.Keys == fields.Keys &&
              r.value["Answer"] == Str(NormalizeAnswer(fields["Answer"].s)) &&
              forall k :: k in fields && k != "Answer" ==> r.value[k] == fields[k]
  {
    match parse(ExtractJsonText(reply))
    case None => None
    case Some(v) =>
      if !v.Obj? || "Answer" !in v.fields || "Reason" !in v.fields || !v.fields["Answer"].Str? then None
      else Some(v.fields["Answer" := Str(NormalizeAnswer(v.fields["Answer"].s))])
  }

  /** The `except` of the inner block: a "yes" anywhere in the lower-cased
      reply decides. */
  function FallbackVerdict(reply: string): (v: Verdict)
    ensures Contains(Lower(reply), Yes) ==> v == map["Answer" := Str(Yes), "Reason" := Str(Yes)]
    ensures !Contains(Lower(reply), Yes) ==> v == map["Answer" := Str("no"), "Reason" := Str("Failed to parse response")]
  {
    if Contains(Lower(reply), Yes) then map["Answer" := Str(Yes), "Reason" := Str(Yes)]
    else map["Answer" := Str("no"), "Reason" := Str("Failed to parse response")]
  }

  /** The verdict for a model reply. */
  function VerdictOf(reply: string, parse: JsonParser): (v: Verdict)
    ensures ParsedVerdict(reply, parse).Some? ==> v == ParsedVerdict(reply, parse).value
    ensures ParsedVerdict(reply, parse).None? ==> v == FallbackVerdict(reply)
  {
    match ParsedVerdict(reply, parse)
    case Some(d) => d
    case None => FallbackVerdict(reply)
  }

  /** `verify_entry` (and the identical `verify_trend_touch`): `reply` is the
      outcome of everything before the parsing (formatting the market data,
      writing the prompt files, the model call); an exception there gives
      "no" with the error as reason. */
  function Verify(reply: Result<string>, parse: JsonParser): (v: Verdict)
    ensures reply.Raised? ==> v == map["Answer" := Str("no"), "Reason" := Str("Error occurred: " + reply.message)]
    ensures reply.Ok? ==> v == VerdictOf(reply.value, parse)
  {
    match reply
    case Raised(e) => map["Answer" := Str("no"), "Reason" := Str("Error occurred: " + e)]
    case Ok(text) => VerdictOf(text, parse)
  }

  /** Whatever the reply, the verdict has an "Answer" that is "yes" or "no". */
  lemma AnswerIsYesOrNo(reply: Result<string>, parse: JsonParser)
    ensures "Answer" in Verify(reply, parse)
    ensures Verify(reply, parse)["Answer"] in {Str(Yes), Str("no")}
  {
    if reply.Ok? && ParsedVerdict(reply.value, parse).Some? {
      var a := NormalizeAnswer(parse(ExtractJsonText(reply.value)).value.fields["Answer"].s);
      assert a == Yes || a == "no";
    }
  }

  /** A reason is always present, too. */
  lemma VerdictHasReason(reply: Result<string>, parse: JsonParser)
    ensures "Reason" in Verify(reply, parse)
  {
  }

  /** A fenced JSON reply is parsed from inside the fence: a reply whose
      "```json" segment decodes to {"Answer": a, "Reason": r} yields "yes"
      exactly when a mentions "yes". */
  lemma {:induction false} FencedReply(reply: string, parse: JsonParser, a: string, reason: Value)
    requires parse(ExtractJsonText(reply)) == Some(Obj(map["Answer" := Str(a), "Reason" := reason]))
    ensures Verify(Ok(reply), parse)["Answer"] == Str(Yes) <==> Contains(Lower(a), Yes)
    ensures Verify(Ok(reply), parse)["Reason"] == reason
  {
    var fields := map["Answer" := Str(a), "Reason" := reason];
    assert "Reason" in fields && fields["Reason"] == reason;
    assert ParsedVerdict(reply, parse).Some?;
    assert ParsedVerdict(reply, parse).value["Reason"] == reason;
  }

  // ---------------------------------------------------------------------
  // generate_response
  // ---------------------------------------------------------------------

  const DefaultMaxTokens: int := 20000
  const ThinkingCap: int := 16000
  const ThinkingMargin: int := 4000
  const Retries: nat := 3

  /** `min(16000, max_tokens - 4000)`. */
  function ThinkingBudget(maxTokens: int): (b: int)
    ensures b <= ThinkingCap && b <= maxTokens - ThinkingMargin
    ensures b == ThinkingCap || b == maxTokens - ThinkingMargin
  {
    if ThinkingCap <= maxTokens - ThinkingMargin then ThinkingCap else maxTokens - ThinkingMargin
  }

  /** With the default 20000 tokens the budget is the 16000 cap. */
  lemma DefaultBudget()
    ensures ThinkingBudget(DefaultMaxTokens) == ThinkingCap
  {
  }

  /** A content block of a model reply, by the attribute the loop finds
      first: `.text`, `.value`, a dict's "text", or none of these. */
  datatype Block =
    | TextBlock(text: string)
    | ValueBlock(value: string)
    | TextDict(text: string)
    | Other

  function BlockText(b: Block): string
  {
    match b
    case TextBlock(t) => t
    case ValueBlock(v) => v
    case TextDict(t) => t
    case Other => ""
  }

  /** The concatenated text of the blocks. */
  function ContentText(blocks: seq<Block>): string
  {
    if blocks == [] then "" else ContentText(blocks[..|blocks| - 1]) + BlockText(blocks[|blocks| - 1])
  }

  /** The text of two runs of blocks is the two texts joined. */
  lemma {:induction false} ContentTextAppend(a: seq<Block>, b: seq<Block>)
    ensures ContentText(a + b) == ContentText(a) + ContentText(b)
    decreases |b|
  {
    if b != [] {
      var b' := b[..|b| - 1];
      assert (a + b)[..|a + b| - 1] == a + b';
      ContentTextAppend(a, b');
    } else {
      assert a + b == a;
    }
  }

  /** Blocks without text add nothing. */
  lemma {:induction false} ContentTextSkipsOther(a: seq<Block>)
    ensures ContentText(a + [Other]) == ContentText(a)
  {
    assert (a + [Other])[..|a|] == a;
  }

  /** `full_text += ...` over the content blocks. */
  method CollectText(blocks: seq<Block>) returns (text: string)
    ensures text == ContentText(blocks)
  {
    text := "";
    for k := 0 to |blocks|
      invariant text == ContentText(blocks[..k])
    {
      assert blocks[..k + 1][..k] == blocks[..k];
      text := text + BlockText(blocks[k]);
    }
    assert blocks[..|blocks|] == blocks;
  }

  /** The reply text: the first call, then up to three retries; when all of
      them raise, "Error: " and the first call's exception. `call(i)` is
      the content of call i or its exception. */
  function ResponseFrom(call: nat -> Result<seq<Block>>, firstError: string, i: nat): (r: string)
    requires 1 <= i
    decreases Retries + 1 - i
  {
    if i > Retries then "Error: " + firstError
    else if call(i).Ok? then ContentText(call(i).value)
    else ResponseFrom(call, firstError, i + 1)
  }

  function Response(call: nat -> Result<seq<Block>>): string
  {
    match call(0)
    case Ok(blocks) => ContentText(blocks)
    case Raised(e) => ResponseFrom(call, e, 1)
  }

  /** `generate_response`; `calls` counts the model calls and `sleeps` the
      two-second waits. */
  method GenerateResponse(call: nat -> Result<seq<Block>>) returns (text: string, calls: nat, sleeps: nat)
    ensures text == Response(call)
    ensures 1 <= calls <= Retries + 1 && sleeps == calls - 1
  {
    calls := 1;
    sleeps := 0;
    var first := call(0);
    if first.Ok? {
      text := CollectText(first.value);
      return;
    }
    for i := 0 to Retries
      invariant calls == i + 1 && sleeps == i
      invariant ResponseFrom(call, first.message, i + 1) == Response(call)
    {
      sleeps := sleeps + 1;
      calls := calls + 1;
      var attempt := call(i + 1);
      if attempt.Ok? {
        text := CollectText(attempt.value);
        return;
      }
    }
    text := "Error: " + first.message;
  }

  /** The reply is the first call that succeeds; only when all four calls
      raise is it the "Error: " text of the first exception. */
  lemma {:induction false} ResponsePolicy(call: nat -> Result<seq<Block>>)
    ensures (forall i :: 0 <= i <= Retries ==> call(i).Raised?) ==> Response(call) == "Error: " + call(0).message
    ensures forall n :: 0 <= n <= Retries && call(n).Ok? && (forall i :: 0 <= i < n ==> call(i).Raised?) ==>
              Response(call) == ContentText(call(n).value)
  {
    if call(0).Raised? {
      var e := call(0).message;
      assert ResponseFrom(call, e, 1) == if call(1).Ok? then ContentText(call(1).value) else ResponseFrom(call, e, 2);
      assert ResponseFrom(call, e, 2) == if call(2).Ok? then ContentText(call(2).value) else ResponseFrom(call, e, 3);
      assert ResponseFrom(call, e, 3) == if call(3).Ok? then ContentText(call(3).value) else ResponseFrom(call, e, 4);
      assert ResponseFrom(call, e, 4) == "Error: " + e;
    }
  }
}
