/** The two clean-ups that turn a language-model reply wrapped in a Markdown code fence into the
    text handed to json.loads (finguardai/mistral.py, extraction and risk assessment). */
module Fences {
  import opened Text

  predicate IsBacktick(c: char) {
    c == '`'
  }

  /** Extraction reply: strip backticks, then whitespace; a leading "json" tag left behind is cut
      off and the rest stripped again. */
  function ExtractionJsonText(content: string): string {
    var s := Strip(Strip(content, IsBacktick), IsSpace);
    if StartsWith(s, "json") then Strip(s[4..], IsSpace) else s
  }

  /** Risk reply: strip whitespace, cut a leading "```json" and a trailing "```", strip again. */
  function RiskJsonText(content: string): string {
    var c0 := Strip(content, IsSpace);
    var c1 := if StartsWith(c0, "```json") then c0[7..] else c0;
    var c2 := if EndsWith(c1, "```") then c1[..|c1| - 3] else c1;
    Strip(c2, IsSpace)
  }

  /** Both clean-ups only cut characters off the ends: what reaches json.loads is a piece of the
      reply, with no whitespace left at either end. */
  lemma ExtractionIsSlice(content: string)
    ensures IsSlice(ExtractionJsonText(content), content)
    ensures Trimmed(ExtractionJsonText(content))
  {
    var s0 := Strip(content, IsBacktick);
    var s := Strip(s0, IsSpace);
    StripSlice(content, IsBacktick);
    StripSlice(s0, IsSpace);
    SliceOfSlice(s, s0, content);
    StripTrims(s0);
    if StartsWith(s, "json") {
      var t := s[4..];
      SuffixSlice(s, 4);
      SliceOfSlice(t, s, content);
      StripSlice(t, IsSpace);
      SliceOfSlice(Strip(t, IsSpace), t, content);
      StripTrims(t);
    }
  }

  lemma RiskIsSlice(content: string)
    ensures IsSlice(RiskJsonText(content), content)
    ensures Trimmed(RiskJsonText(content))
  {
    var c0 := Strip(content, IsSpace);
    var c1 := if StartsWith(c0, "```json") then c0[7..] else c0;
    var c2 := if EndsWith(c1, "```") then c1[..|c1| - 3] else c1;
    assert RiskJsonText(content) == Strip(c2, IsSpace);
    StripTrims(c2);
    RiskSlices(content, c0, c1, c2);
  }

  lemma RiskSlices(content: string, c0: string, c1: string, c2: string)
    requires c0 == Strip(content, IsSpace)
    requires c1 == if StartsWith(c0, "```json") then c0[7..] else c0
    requires c2 == if EndsWith(c1, "```") then c1[..|c1| - 3] else c1
    ensures IsSlice(Strip(c2, IsSpace), content)
  {
    if StartsWith(c0, "```json") {
      SuffixSlice(c0, 7);
    } else {
      assert c1 == c0[..|c0|];
      PrefixSlice(c0, |c0|);
    }
    if EndsWith(c1, "```") {
      PrefixSlice(c1, |c1| - 3);
    } else {
      assert c2 == c1[..|c1|];
      PrefixSlice(c1, |c1|);
    }
    StripSlice(content, IsSpace);
    StripSlice(c2, IsSpace);
    SliceOfSlice(c1, c0, content);
    SliceOfSlice(c2, c1, content);
    SliceOfSlice(Strip(c2, IsSpace), c2, content);
  }

  /** A JSON text as a model writes it inside the fence: not empty, no whitespace or backtick at
      either end, and not itself starting with "json" (no JSON text does). */
  predicate Bare(j: string) {
    j != [] && !IsSpace(j[0]) && !IsSpace(j[|j| - 1]) && j[0] != '`' && j[|j| - 1] != '`'
    && !StartsWith(j, "json")
  }

  /** The fenced form the prompts ask for. */
  function Fenced(j: string): string {
    "```json\n" + j + "\n```"
  }

  /** A fence without the language tag. */
  function PlainFenced(j: string): string {
    "```\n" + j + "\n```"
  }

  /** The JSON text with the line breaks that surround it inside a fence. */
  function Inner(j: string): string {
    "\n" + j + "\n"
  }

  lemma FenceForms(j: string)
    ensures Fenced(j) == "```json" + Inner(j) + "```"
    ensures Fenced(j) == "```" + ("json" + Inner(j)) + "```"
    ensures PlainFenced(j) == "```" + Inner(j) + "```"
    ensures "json" + Inner(j) == "json\n" + j + "\n"
  {
  }

  /** The three pieces of a concatenation, taken back apart. */
  lemma Parts(a: string, m: string, b: string)
    ensures (a + m + b)[..|a|] == a
    ensures (a + m + b)[|a|..] == m + b
    ensures (a + m + b)[..|a| + |m|] == a + m
    ensures (a + m + b)[|a| + |m|..] == b
    ensures (a + m + b)[|a|..|a| + |m|] == m
  {
  }

  lemma Halves(a: string, b: string)
    ensures (a + b)[..|a|] == a && (a + b)[|a|..] == b
  {
  }

  lemma StripBare(j: string, drop: char -> bool)
    requires j != [] && !drop(j[0]) && !drop(j[|j| - 1])
    ensures Strip(j, drop) == j
  {
    StripUnique(j, drop, 0, |j|);
  }

  /** Text that already has nothing to strip passes through both clean-ups unchanged. */
  lemma {:induction false} BareUnchanged(j: string)
    requires Bare(j)
    ensures ExtractionJsonText(j) == j
    ensures RiskJsonText(j) == j
  {
    StripBare(j, IsBacktick);
    StripBare(j, IsSpace);
    assert !StartsWith(j, "```json") by { assert |j| >= 7 ==> j[..7][0] == j[0]; }
    assert !EndsWith(j, "```") by { assert |j| >= 3 ==> j[|j| - 3..][2] == j[|j| - 1]; }
  }

  /** Whitespace around a bare text is all that Strip removes. */
  lemma InnerStrips(j: string)
    requires Bare(j)
    ensures Strip(Inner(j), IsSpace) == j
  {
    var m := Inner(j);
    Parts("\n", j, "\n");
    assert m[0] == m[..1][0] == '\n';
    assert m[|m| - 1] == m[|m| - 1..][0] == '\n';
    StripUnique(m, IsSpace, 1, |m| - 1);
  }

  /** Three backticks on each side of `m`, which neither starts nor ends with one, are what the
      backtick strip removes. */
  lemma BackticksStrip(m: string)
    requires m != [] && m[0] != '`' && m[|m| - 1] != '`'
    ensures Strip("```" + m + "```", IsBacktick) == m
  {
    var f := "```" + m + "```";
    Parts("```", m, "```");
    assert forall k :: 0 <= k < 3 ==> f[k] == f[..3][k];
    assert forall k :: 3 + |m| <= k < |f| ==> f[k] == f[3 + |m|..][k - 3 - |m|];
    assert f[3] == m[0] && f[3 + |m| - 1] == m[|m| - 1];
    StripUnique(f, IsBacktick, 3, 3 + |m|);
  }

  /** The extraction clean-up removes a tagged fence: cleaning the fenced text gives back the JSON. */
  lemma {:induction false} ExtractionUnfences(j: string)
    requires Bare(j)
    ensures ExtractionJsonText(Fenced(j)) == j
  {
    FenceForms(j);
    var body := "json" + Inner(j);
    assert body[0] == 'j';
    assert body[|body| - 1] == '\n';
    BackticksStrip(body);
    TaggedBody(j);
  }

  /** After the backticks, a trailing line break goes, the "json" tag is cut, and the leading line
      break goes. */
  lemma TaggedBody(j: string)
    requires Bare(j)
    ensures var s := Strip("json" + Inner(j), IsSpace);
            StartsWith(s, "json") && Strip(s[4..], IsSpace) == j
  {
    var kept := "json" + ("\n" + j);
    assert "json" + Inner(j) == kept + "\n";
    assert kept[0] == 'j' && kept[|kept| - 1] == j[|j| - 1];
    TrailingBreak(kept);
    Halves("json", "\n" + j);
    LeadingBreak(j);
  }

  lemma TrailingBreak(p: string)
    requires p != [] && !IsSpace(p[0]) && !IsSpace(p[|p| - 1])
    ensures Strip(p + "\n", IsSpace) == p
  {
    Halves(p, "\n");
    StripUnique(p + "\n", IsSpace, 0, |p|);
  }

  lemma LeadingBreak(p: string)
    requires p != [] && !IsSpace(p[0]) && !IsSpace(p[|p| - 1])
    ensures Strip("\n" + p, IsSpace) == p
  {
    Halves("\n", p);
    StripUnique("\n" + p, IsSpace, 1, |p| + 1);
  }

  /** The extraction clean-up also removes a fence without the tag. */
  lemma {:induction false} ExtractionUnfencesPlain(j: string)
    requires Bare(j)
    ensures ExtractionJsonText(PlainFenced(j)) == j
  {
    FenceForms(j);
    var m := Inner(j);
    Parts("\n", j, "\n");
    assert m[0] == '\n' && m[|m| - 1] == '\n';
    BackticksStrip(m);
    InnerStrips(j);
    assert !StartsWith(j, "json");
  }

  /** The risk clean-up removes a tagged fence: cleaning the fenced text gives back the JSON. */
  lemma {:induction false} RiskUnfences(j: string)
    requires Bare(j)
    ensures RiskJsonText(Fenced(j)) == j
  {
    FenceForms(j);
    var f := Fenced(j);
    var m := Inner(j);
    Parts("```json", m, "```");
    assert f[0] == '`' && f[|f| - 1] == '`';
    StripBare(f, IsSpace);
    var c1 := f[7..];
    Halves(m, "```");
    InnerStrips(j);
  }

  lemma UntaggedFence(j: string)
    requires Bare(j)
    ensures !StartsWith(PlainFenced(j), "```json")
  {
    FenceForms(j);
    var f := PlainFenced(j);
    Parts("```", Inner(j), "```");
    assert f[3] == Inner(j)[0] == '\n';
  }

  /** Unlike the extraction clean-up, the risk clean-up keeps the opening of a fence that has no
      "json" tag, so the text handed to json.loads starts with a backtick. */
  lemma {:induction false} RiskKeepsPlainFence(j: string)
    requires Bare(j)
    ensures RiskJsonText(PlainFenced(j)) == "```\n" + j
  {
    var f := PlainFenced(j);
    PlainFenceEnds(j);
    UntaggedFence(j);
    RiskWithoutTag(f);
    PlainFenceBody(j);
    TrailingBreak("```\n" + j);
  }

  lemma PlainFenceBody(j: string)
    requires j != []
    ensures var f := PlainFenced(j); |f| >= 3 && f[..|f| - 3] == ("```\n" + j) + "\n"
    ensures var kept := "```\n" + j; kept[0] == '`' && kept[|kept| - 1] == j[|j| - 1]
  {
    FenceForms(j);
    Parts("```", Inner(j), "```");
  }

  lemma PlainFenceEnds(j: string)
    ensures var f := PlainFenced(j); |f| >= 3 && f[0] == '`' && EndsWith(f, "```")
  {
    FenceForms(j);
    Parts("```", Inner(j), "```");
  }

  /** The risk clean-up of a reply with no whitespace around it that ends, but does not start, like
      a tagged fence. */
  lemma RiskWithoutTag(f: string)
    requires |f| >= 3 && !IsSpace(f[0]) && !IsSpace(f[|f| - 1])
    requires !StartsWith(f, "```json") && EndsWith(f, "```")
    ensures RiskJsonText(f) == Strip(f[..|f| - 3], IsSpace)
  {
    StripBare(f, IsSpace);
  }
}
