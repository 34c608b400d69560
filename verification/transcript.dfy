/**
 The per-call transcript: an ordered list of `{role, text}` entries built
 from caller utterances, streamed agent transcript deltas and the agent's
 final response text, and its rendering into `User: …` / `Assistant: …`
 lines for the hand-off at the end of a call.
 */
module Transcript {
  import opened Common

  /** `separator` entries are never produced by the relay but are dropped when rendering. */
  datatype Role = User | Assistant | Separator

  datatype Entry = Entry(role: Role, text: string)

  /** The last entry exists and is the agent's. */
  predicate EndsWithAgent(t: seq<Entry>)
  {
    |t| > 0 && t[|t| - 1].role == Assistant
  }

  /**
   `t'` differs from `t` by exactly one pushed entry, or by a rewrite of the
   last entry only; every earlier entry keeps its place and content.
   */
  predicate TailEdit(t: seq<Entry>, t': seq<Entry>)
  {
    || (|t'| == |t| + 1 && t'[..|t|] == t)
    || (|t| > 0 && |t'| == |t| && t'[..|t| - 1] == t[..|t| - 1])
  }

  /** A caller utterance is always a new entry. */
  function AddCaller(t: seq<Entry>, text: string): (r: seq<Entry>)
    ensures TailEdit(t, r)
    ensures |r| == |t| + 1 && r[|t|] == Entry(User, text)
  {
    t + [Entry(User, text)]
  }

  /**
   A streamed agent delta: concatenated onto the last entry when that entry
   is the agent's, otherwise a new agent entry.
   */
  function AddAgentDelta(t: seq<Entry>, part: string): (r: seq<Entry>)
    ensures TailEdit(t, r)
    ensures EndsWithAgent(r)
    ensures EndsWithAgent(t) ==> |r| == |t| && r[|r| - 1].text == t[|t| - 1].text + part
    ensures !EndsWithAgent(t) ==> r == t + [Entry(Assistant, part)]
  {
    if EndsWithAgent(t) then
      t[..|t| - 1] + [Entry(Assistant, t[|t| - 1].text + part)]
    else
      t + [Entry(Assistant, part)]
  }

  /**
   The agent's final text for a response: it replaces the text of a trailing
   agent entry (deltas already collected there are discarded), otherwise it
   becomes a new agent entry.
   */
  function SetAgentFinal(t: seq<Entry>, text: string): (r: seq<Entry>)
    ensures TailEdit(t, r)
    ensures r[|r| - 1] == Entry(Assistant, text)
    ensures EndsWithAgent(t) ==> |r| == |t|
    ensures !EndsWithAgent(t) ==> |r| == |t| + 1
  {
    if EndsWithAgent(t) then
      t[..|t| - 1] + [Entry(Assistant, text)]
    else
      t + [Entry(Assistant, text)]
  }

  /** Streaming a list of deltas, one event each. */
  function AddAgentDeltas(t: seq<Entry>, parts: seq<string>): seq<Entry>
    decreases |parts|
  {
    if |parts| == 0 then t else AddAgentDeltas(AddAgentDelta(t, parts[0]), parts[1..])
  }

  function Concat(parts: seq<string>): string
    decreases |parts|
  {
    if |parts| == 0 then "" else parts[0] + Concat(parts[1..])
  }

  /** Appending an empty string to the last entry is no change. */
  lemma GrowByNothing(t: seq<Entry>)
    requires EndsWithAgent(t)
    ensures t[..|t| - 1] + [Entry(Assistant, t[|t| - 1].text + Concat([]))] == t
  {
    var last := t[|t| - 1];
    assert last.text + Concat([]) == last.text;
    assert Entry(Assistant, last.text) == last;
  }

  /** One delta onto an agent entry keeps everything before it and extends its text. */
  lemma DeltaShape(t: seq<Entry>, part: string)
    requires EndsWithAgent(t)
    ensures var t1 := AddAgentDelta(t, part);
      t1[..|t1| - 1] == t[..|t| - 1] && t1[|t1| - 1].text == t[|t| - 1].text + part
  {
  }

  lemma ConcatFirst(x: string, parts: seq<string>)
    requires |parts| > 0
    ensures x + parts[0] + Concat(parts[1..]) == x + Concat(parts)
  {
  }

  /** Deltas that follow an agent entry all grow that one entry, in order. */
  lemma {:induction false} DeltasGrowLastEntry(t: seq<Entry>, parts: seq<string>)
    requires EndsWithAgent(t)
    ensures AddAgentDeltas(t, parts)
         == t[..|t| - 1] + [Entry(Assistant, t[|t| - 1].text + Concat(parts))]
    decreases |parts|
  {
    if |parts| == 0 {
      GrowByNothing(t);
    } else {
      DeltasGrowLastEntry(AddAgentDelta(t, parts[0]), parts[1..]);
      DeltaShape(t, parts[0]);
      ConcatFirst(t[|t| - 1].text, parts);
    }
  }

  /** A run of deltas after a caller entry (or at the start) yields exactly one new agent entry. */
  lemma DeltasMakeOneEntry(t: seq<Entry>, parts: seq<string>)
    requires !EndsWithAgent(t)
    requires |parts| > 0
    ensures AddAgentDeltas(t, parts) == t + [Entry(Assistant, Concat(parts))]
  {
    var t1 := AddAgentDelta(t, parts[0]);
    DeltasGrowLastEntry(t1, parts[1..]);
    assert t1[..|t1| - 1] == t;
  }

  /**
   Deltas followed by the final text leave one agent entry holding exactly the
   final text: "Hi", " there", then "Hi there!" gives "Hi there!", not
   "Hi thereHi there!". When the transcript already ends with an agent entry
   (no caller text was recorded since the previous response), that entry is
   the one the deltas grow and the final text overwrites.
   */
  lemma FinalReplacesDeltas(t: seq<Entry>, parts: seq<string>, final: string)
    ensures SetAgentFinal(AddAgentDeltas(t, parts), final)
         == (if EndsWithAgent(t) then t[..|t| - 1] else t) + [Entry(Assistant, final)]
  {
    if EndsWithAgent(t) {
      DeltasGrowLastEntry(t, parts);
      var t1 := t[..|t| - 1] + [Entry(Assistant, t[|t| - 1].text + Concat(parts))];
      assert t1[..|t1| - 1] == t[..|t| - 1];
    } else if |parts| > 0 {
      DeltasMakeOneEntry(t, parts);
      var t1 := t + [Entry(Assistant, Concat(parts))];
      assert t1[..|t1| - 1] == t;
    }
  }

  /**
   A response whose caller turn was never recorded overwrites the previous
   response: after "first answer", the deltas "Sec", "ond" and the final
   text "Second" leave only "Second".
   */
  lemma EarlierResponseLost()
    ensures SetAgentFinal(AddAgentDeltas([Entry(User, "hi"), Entry(Assistant, "first answer")], ["Sec", "ond"]), "Second")
         == [Entry(User, "hi"), Entry(Assistant, "Second")]
  {
    var t := [Entry(User, "hi"), Entry(Assistant, "first answer")];
    FinalReplacesDeltas(t, ["Sec", "ond"], "Second");
    assert t[..|t| - 1] == [Entry(User, "hi")];
  }

  /** The worked example: deltas "Hi", " there", final "Hi there!". */
  lemma HiThereExample(t: seq<Entry>)
    requires !EndsWithAgent(t)
    ensures SetAgentFinal(AddAgentDeltas(t, ["Hi", " there"]), "Hi there!")
         == t + [Entry(Assistant, "Hi there!")]
  {
    FinalReplacesDeltas(t, ["Hi", " there"], "Hi there!");
  }

  /** The speaker label of a rendered line. */
  function Label(r: Role): string
  {
    if r == User then "User" else "Assistant"
  }

  /** The line an entry renders to: its speaker label, a colon and a space, then its text. */
  function LineOf(e: Entry): string
  {
    Label(e.role) + ": " + e.text
  }

  /** The entries that appear in the rendering: every entry but the separators, in order. */
  function Said(t: seq<Entry>): (r: seq<Entry>)
    ensures |r| <= |t|
    ensures forall i :: 0 <= i < |r| ==> r[i].role != Separator
    ensures (forall i :: 0 <= i < |t| ==> t[i].role != Separator) ==> r == t
    decreases |t|
  {
    if |t| == 0 then []
    else
      assert forall i :: 0 <= i < |t| - 1 ==> t[1..][i] == t[i + 1];
      if t[0].role == Separator then Said(t[1..]) else [t[0]] + Said(t[1..])
  }

  /**
   One rendered line per entry that is not a separator, in transcript order,
   each being that entry's label and text.
   */
  function Lines(t: seq<Entry>): (r: seq<string>)
    ensures |r| == |Said(t)|
    ensures forall i :: 0 <= i < |r| ==> r[i] == LineOf(Said(t)[i])
    ensures forall i :: 0 <= i < |r| ==> HasPrefix(r[i], "User: ") || HasPrefix(r[i], "Assistant: ")
    decreases |t|
  {
    if |t| == 0 then []
    else if t[0].role == Separator then Lines(t[1..])
    else
      var line := LineOf(t[0]);
      assert line[..|Label(t[0].role) + ": "|] == Label(t[0].role) + ": ";
      [line] + Lines(t[1..])
  }

  /** A single entry renders to its own line, or to nothing when it is a separator. */
  lemma LinesOfOne(e: Entry)
    ensures Lines([e]) == if e.role == Separator then [] else [LineOf(e)]
  {
    assert [e][1..] == [];
  }

  /** The text handed off at the end of a call. */
  function Render(t: seq<Entry>): string
  {
    Join(Lines(t), '\n')
  }

  /** No entry text contains a line break. */
  predicate SingleLineTexts(t: seq<Entry>)
  {
    forall i :: 0 <= i < |t| ==> '\n' !in t[i].text
  }

  lemma {:induction false} LinesAreSingleLine(t: seq<Entry>)
    requires SingleLineTexts(t)
    ensures forall i :: 0 <= i < |Lines(t)| ==> '\n' !in Lines(t)[i]
    decreases |t|
  {
    if |t| > 0 {
      assert SingleLineTexts(t[1..]) by {
        forall i | 0 <= i < |t[1..]| ensures '\n' !in t[1..][i].text {
          assert t[1..][i] == t[i + 1];
        }
      }
      LinesAreSingleLine(t[1..]);
      if t[0].role != Separator {
        assert '\n' !in LineOf(t[0]);
      }
    }
  }

  /** The rendering can be split back, line by line, into the entries it came from. */
  lemma RenderSplitsIntoLines(t: seq<Entry>)
    requires SingleLineTexts(t)
    requires |Lines(t)| > 0
    ensures Split(Render(t), '\n') == Lines(t)
  {
    LinesAreSingleLine(t);
    SplitJoin(Lines(t), '\n');
  }

  /** Rendering works entry by entry: lines never move across entries or reorder. */
  lemma {:induction false} LinesOfConcat(t: seq<Entry>, u: seq<Entry>)
    ensures Lines(t + u) == Lines(t) + Lines(u)
    decreases |t|
  {
    if |t| == 0 {
      assert t + u == u;
    } else {
      assert (t + u)[0] == t[0];
      assert (t + u)[1..] == t[1..] + u;
      LinesOfConcat(t[1..], u);
    }
  }
}
