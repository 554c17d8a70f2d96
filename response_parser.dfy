/** `parseJsonResponse` of the Creator's Edge Studio
    (pegasus-edge/components/tools/CreatorsEdgeStudioTool.tsx): trim the raw
    text, unwrap a markdown code fence, decode, and fall back on failure. */
module ResponseParser {
  import opened Wrappers
  import opened Text

  const Fence := "```"

  /** A successful match of the fence pattern
      ^```(\w*)?\s*\n?(.*?)\n?\s*```$ (dot matches newlines): `tag` is the
      first group, `capture` the second, and `lead`/`trail` the whitespace
      the pattern skips around the capture. */
  datatype FenceMatch = FenceMatch(tag: string, lead: string, capture: string, trail: string)

  /** The text between the fences. */
  function Body(m: FenceMatch): string {
    m.tag + m.lead + m.capture + m.trail
  }

  /** The decomposition the backtracking matcher settles on: greedy tag,
      greedy leading whitespace, then the shortest capture after which only
      whitespace precedes the closing fence. (The closing fence's backtick
      ends both greedy runs.) */
  predicate GroupsShape(m: FenceMatch) {
    && AllWord(m.tag) && AllSpace(m.lead) && AllSpace(m.trail)
    && Trimmed(m.capture)
    && (m.lead + m.capture + m.trail == [] || !IsWordChar((m.lead + m.capture + m.trail)[0]))
    && (m.capture + m.trail == [] || !IsSpace((m.capture + m.trail)[0]))
  }

  predicate IsFenceMatchOf(m: FenceMatch, s: string) {
    s == Fence + Body(m) + Fence && GroupsShape(m)
  }

  /** Long enough for two fences, opening and closing with one. */
  predicate Fenced(s: string) {
    && |s| >= 6
    && s[0] == '`' && s[1] == '`' && s[2] == '`'
    && s[|s| - 3] == '`' && s[|s| - 2] == '`' && s[|s| - 1] == '`'
  }

  lemma FencedIsStartsAndEnds(s: string)
    ensures Fenced(s) <==> |s| >= 6 && StartsWith(s, Fence) && EndsWith(s, Fence)
  {
    if |s| >= 6 && StartsWith(s, Fence) && EndsWith(s, Fence) {
      assert s[..3][0] == s[0] && s[..3][1] == s[1] && s[..3][2] == s[2];
      assert s[|s| - 3..][0] == s[|s| - 3] && s[|s| - 3..][1] == s[|s| - 2] && s[|s| - 3..][2] == s[|s| - 1];
    }
    if Fenced(s) {
      assert s[..3] == Fence;
      assert s[|s| - 3..] == Fence;
    }
  }

  /** The groups the matcher settles on for the text between the fences:
      the `\w` run, the space run after it, and the capture that stops
      where the final run of spaces begins. */
  function BodyGroups(body: string): (m: FenceMatch)
    ensures Body(m) == body && GroupsShape(m)
  {
    BodyGroupsShape(body);
    RawGroups(body)
  }

  function RawGroups(body: string): FenceMatch {
    var a := WordRunEnd(body, 0);
    var b := SpaceRunEnd(body, a);
    var c := SpaceRunStart(body, b, |body|);
    FenceMatch(body[..a], body[a..b], body[b..c], body[c..])
  }

  lemma BodyGroupsShape(body: string)
    ensures Body(RawGroups(body)) == body && GroupsShape(RawGroups(body))
  {
    RawGroupsConcat(body);
    RawGroupsRuns(body);
    RawGroupsStops(body);
  }

  lemma RawGroupsConcat(body: string)
    ensures Body(RawGroups(body)) == body
  {
    var a := WordRunEnd(body, 0);
    var b := SpaceRunEnd(body, a);
    var c := SpaceRunStart(body, b, |body|);
    SlicesConcat(body, a, b, c);
  }

  /** Four consecutive slices put back together. */
  lemma SlicesConcat(body: string, a: nat, b: nat, c: nat)
    requires a <= b <= c <= |body|
    ensures body[..a] + body[a..b] + body[b..c] + body[c..] == body
  {
    assert body[b..c] + body[c..] == body[b..];
    assert body[a..b] + body[b..] == body[a..];
    assert body[..a] + body[a..] == body;
  }

  lemma RawGroupsRuns(body: string)
    ensures var m := RawGroups(body);
            AllWord(m.tag) && AllSpace(m.lead) && AllSpace(m.trail) && Trimmed(m.capture)
  {
  }

  lemma RawGroupsStops(body: string)
    ensures var m := RawGroups(body);
            && (m.lead + m.capture + m.trail == [] || !IsWordChar((m.lead + m.capture + m.trail)[0]))
            && (m.capture + m.trail == [] || !IsSpace((m.capture + m.trail)[0]))
  {
    var a := WordRunEnd(body, 0);
    var b := SpaceRunEnd(body, a);
    var c := SpaceRunStart(body, b, |body|);
    StopsAt(body, a, b, c);
  }

  /** The tail after the tag starts with a non-word character, and the tail
      after the leading spaces with a non-space. */
  lemma StopsAt(body: string, a: nat, b: nat, c: nat)
    requires a <= b <= c <= |body|
    requires a < |body| ==> !IsWordChar(body[a])
    requires b < |body| ==> !IsSpace(body[b])
    ensures var afterTag := body[a..b] + body[b..c] + body[c..];
            afterTag == [] || !IsWordChar(afterTag[0])
    ensures var afterLead := body[b..c] + body[c..];
            afterLead == [] || !IsSpace(afterLead[0])
  {
    assert body[a..b] + body[b..c] + body[c..] == body[a..];
    assert body[b..c] + body[c..] == body[b..];
  }

  /** The groups are determined by the text between the fences. */
  lemma {:induction false} BodyGroupsUnique(m: FenceMatch)
    requires GroupsShape(m)
    ensures BodyGroups(Body(m)) == m
  {
    var body := Body(m);
    var a, b, c := |m.tag|, |m.tag| + |m.lead|, |m.tag| + |m.lead| + |m.capture|;
    BodySlices(m);
    TagRunEnds(m);
    LeadRunEnds(m);
    TrailRunStarts(m);
  }

  /** Where each group sits in the text between the fences. */
  lemma BodySlices(m: FenceMatch)
    ensures var body := Body(m);
            var a, b, c := |m.tag|, |m.tag| + |m.lead|, |m.tag| + |m.lead| + |m.capture|;
            && |body| == c + |m.trail|
            && body[..a] == m.tag && body[a..b] == m.lead && body[b..c] == m.capture && body[c..] == m.trail
            && body[a..] == m.lead + m.capture + m.trail && body[b..] == m.capture + m.trail
  {
    var body := Body(m);
    var rest := m.lead + m.capture + m.trail;
    assert body == m.tag + rest;
    PrefixSuffix(m.tag, rest);
    var rest2 := m.capture + m.trail;
    assert rest == m.lead + rest2;
    PrefixSuffix(m.lead, rest2);
    PrefixSuffix(m.capture, m.trail);
    var a, b, c := |m.tag|, |m.tag| + |m.lead|, |m.tag| + |m.lead| + |m.capture|;
    SliceOfSuffix(body, a, b);
    SliceOfSuffix(body, a, c);
    SliceOfSuffix(body, b, c);
    SliceOfSuffixMid(body, a, b);
    SliceOfSuffixMid(body, b, c);
  }

  lemma PrefixSuffix(p: string, q: string)
    ensures (p + q)[..|p|] == p && (p + q)[|p|..] == q
  {
  }

  /** Dropping `i` and then `j - i` characters drops `j`. */
  lemma SliceOfSuffix(s: string, i: nat, j: nat)
    requires i <= j <= |s|
    ensures s[i..][j - i..] == s[j..]
  {
  }

  /** The first `j - i` characters after dropping `i` are `s[i..j]`. */
  lemma SliceOfSuffixMid(s: string, i: nat, j: nat)
    requires i <= j <= |s|
    ensures s[i..][..j - i] == s[i..j]
  {
  }

  lemma TagRunEnds(m: FenceMatch)
    requires GroupsShape(m)
    ensures WordRunEnd(Body(m), 0) == |m.tag|
  {
    var body := Body(m);
    var a := |m.tag|;
    BodySlices(m);
    assert forall k :: 0 <= k < a ==> body[k] == body[..a][k];
    if a < |body| {
      assert body[a] == body[a..][0];
    }
    WordRunEndIs(body, 0, a);
  }

  lemma LeadRunEnds(m: FenceMatch)
    requires GroupsShape(m)
    ensures SpaceRunEnd(Body(m), |m.tag|) == |m.tag| + |m.lead|
  {
    var body := Body(m);
    var a, b := |m.tag|, |m.tag| + |m.lead|;
    BodySlices(m);
    assert forall k :: a <= k < b ==> body[k] == body[a..b][k - a];
    if b < |body| {
      assert body[b] == body[b..][0];
    }
    SpaceRunEndIs(body, a, b);
  }

  lemma TrailRunStarts(m: FenceMatch)
    requires GroupsShape(m)
    ensures var body := Body(m);
            SpaceRunStart(body, |m.tag| + |m.lead|, |body|) == |m.tag| + |m.lead| + |m.capture|
  {
    var body := Body(m);
    var b, c := |m.tag| + |m.lead|, |m.tag| + |m.lead| + |m.capture|;
    BodySlices(m);
    assert forall k :: c <= k < |body| ==> body[k] == body[c..][k - c];
    if m.capture != [] {
      assert body[c - 1] == body[b..c][|m.capture| - 1];
    }
    SpaceRunStartIs(body, b, c, |body|);
  }

  lemma SplitFenced(s: string)
    requires Fenced(s)
    ensures s == Fence + s[3..|s| - 3] + Fence
  {
    assert s == s[..3] + s[3..|s| - 3] + s[|s| - 3..];
  }

  /** `s.match(fenceRegex)`. */
  function MatchFence(s: string): (m: Option<FenceMatch>)
    ensures m.Some? <==> Fenced(s)
    ensures m.Some? ==> IsFenceMatchOf(m.value, s)
  {
    if Fenced(s) then
      SplitFenced(s);
      Some(BodyGroups(s[3..|s| - 3]))
    else None
  }

  /** The match is the only decomposition of that shape: the pattern's
      groups are determined by the text. */
  lemma FenceMatchUnique(m: FenceMatch, s: string)
    requires IsFenceMatchOf(m, s)
    ensures MatchFence(s) == Some(m)
  {
    assert s == Fence + (Body(m) + Fence);
    assert Fenced(s);
    assert s[3..|s| - 3] == Body(m);
    BodyGroupsUnique(m);
  }

  /** The text handed to `JSON.parse`: the trimmed input, replaced by the
      trimmed capture when the fence pattern matches with a non-empty
      capture. */
  function JsonPayload(raw: string): (str: string)
    ensures Trimmed(str)
    ensures var t := Trim(raw);
            MatchFence(t).None? || MatchFence(t).value.capture == [] ==> str == t
    ensures var t := Trim(raw);
            MatchFence(t).Some? && MatchFence(t).value.capture != [] ==>
              str == MatchFence(t).value.capture
  {
    var t := Trim(raw);
    match MatchFence(t)
    case Some(m) =>
      if m.capture != [] then
        TrimOfTrimmed(m.capture);
        Trim(m.capture)
      else t
    case None => t
  }

  /** `parseJsonResponse(raw, fallback)`, with `parse` standing for
      `JSON.parse` at the expected type (`None` when it throws). */
  function ParseJsonResponse<T>(raw: string, parse: string -> Option<T>, fallback: T): (r: T)
    ensures parse(JsonPayload(raw)).None? ==> r == fallback
    ensures parse(JsonPayload(raw)).Some? ==> r == parse(JsonPayload(raw)).value
  {
    match parse(JsonPayload(raw))
    case Some(v) => v
    case None => fallback
  }

  /** A reply as text generators usually format JSON: a fence with a
      language tag on its own line, the payload, and a closing fence. */
  function FencedReply(tag: string, j: string): string {
    Fence + tag + "\n" + j + "\n" + Fence
  }

  lemma FencedReplyMatch(tag: string, j: string)
    requires AllWord(tag) && j != [] && Trimmed(j)
    ensures IsFenceMatchOf(FenceMatch(tag, "\n", j, "\n"), FencedReply(tag, j))
  {
    var m := FenceMatch(tag, "\n", j, "\n");
    assert FencedReply(tag, j) == Fence + Body(m) + Fence;
    assert (m.lead + m.capture + m.trail)[0] == '\n';
    assert (m.capture + m.trail)[0] == j[0];
  }

  lemma FencedReplyTrimmed(tag: string, j: string)
    ensures Trimmed(FencedReply(tag, j)) && FencedReply(tag, j) != []
  {
    var t := FencedReply(tag, j);
    assert t[0] == '`' && t[|t| - 1] == '`';
  }

  /** A fenced reply, with any tag and any surrounding whitespace, yields
      exactly its inner text to the decoder. */
  lemma FencedPayload(pre: string, tag: string, j: string, post: string)
    requires AllSpace(pre) && AllSpace(post) && AllWord(tag)
    requires j != [] && Trimmed(j)
    ensures JsonPayload(pre + FencedReply(tag, j) + post) == j
  {
    var t := FencedReply(tag, j);
    FencedReplyTrimmed(tag, j);
    TrimPadded(pre, t, post);
    FencedReplyMatch(tag, j);
    FenceMatchUnique(FenceMatch(tag, "\n", j, "\n"), t);
  }

  /** Round trip: a fenced reply holding valid JSON decodes to that JSON's
      value. */
  lemma FencedRoundTrip<T>(tag: string, j: string, parse: string -> Option<T>, v: T, fallback: T)
    requires AllWord(tag) && j != [] && Trimmed(j) && parse(j) == Some(v)
    ensures ParseJsonResponse(FencedReply(tag, j), parse, fallback) == v
  {
    FencedPayload([], tag, j, []);
    assert [] + FencedReply(tag, j) + [] == FencedReply(tag, j);
  }

  /** A reply without a fence is decoded after trimming only. */
  lemma UnfencedPayload(raw: string)
    requires !StartsWith(Trim(raw), Fence)
    ensures JsonPayload(raw) == Trim(raw)
  {
    FencedIsStartsAndEnds(Trim(raw));
  }

  /** A reply without an opening fence is decoded as its trim: text the
      decoder rejects after trimming gives exactly the fallback, and text it
      accepts gives the decoded value. */
  lemma UnfencedReplyResult<T>(raw: string, parse: string -> Option<T>, fallback: T)
    requires !StartsWith(Trim(raw), Fence)
    ensures parse(Trim(raw)).None? ==> ParseJsonResponse(raw, parse, fallback) == fallback
    ensures parse(Trim(raw)).Some? ==> ParseJsonResponse(raw, parse, fallback) == parse(Trim(raw)).value
  {
    UnfencedPayload(raw);
  }

  /** An empty fence ("``````", "```json```") leaves the trimmed text in
      place: the pattern matches but its capture is empty. */
  lemma EmptyFenceKeepsText(tag: string)
    requires AllWord(tag)
    ensures JsonPayload(Fence + tag + Fence) == Fence + tag + Fence
  {
    var t := Fence + tag + Fence;
    assert Trimmed(t);
    TrimOfTrimmed(t);
    var m := FenceMatch(tag, [], [], []);
    assert t == Fence + Body(m) + Fence;
    FenceMatchUnique(m, t);
  }
}
