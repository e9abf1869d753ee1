/**
 * The live transcript of a practice session: incremental transcription
 * fragments from the student ("user") and the examiner ("model") merged
 * into a list of turns, and the transcript rendered as the text sent for
 * evaluation.
 */
module Transcript {
  import opened Wrappers

  datatype Speaker = User | Model

  /** One turn of the transcript (`TranscriptionItem`). */
  datatype Item = Item(kind: Speaker, text: string)

  /** One transcription fragment as it arrives from the live session. */
  datatype Fragment = Fragment(speaker: Speaker, text: string)

  /** No two neighbouring turns belong to the same speaker. */
  predicate Alternating(items: seq<Item>) {
    forall i :: 0 < i < |items| ==> items[i - 1].kind != items[i].kind
  }

  /** All turn texts, in order, run together. */
  function Flatten(items: seq<Item>): string {
    if items == [] then "" else Flatten(items[..|items| - 1]) + items[|items| - 1].text
  }

  /** All fragment texts, in arrival order, run together. */
  function Concat(fs: seq<Fragment>): string {
    if fs == [] then "" else Concat(fs[..|fs| - 1]) + fs[|fs| - 1].text
  }

  /**
   * The update applied for one fragment: it is added to the last turn when
   * that turn is the same speaker's, and otherwise opens a new turn.
   */
  function Merge(prev: seq<Item>, f: Fragment): (r: seq<Item>)
    ensures |r| > 0 && r[|r| - 1].kind == f.speaker
    ensures |prev| > 0 && prev[|prev| - 1].kind == f.speaker ==>
              |r| == |prev| && r[|r| - 1].text == prev[|prev| - 1].text + f.text
    ensures !(|prev| > 0 && prev[|prev| - 1].kind == f.speaker) ==>
              |r| == |prev| + 1 && r[..|prev|] == prev && r[|prev|] == Item(f.speaker, f.text)
    ensures |prev| > 0 ==> r[..|prev| - 1] == prev[..|prev| - 1]
  {
    var n := |prev|;
    if n > 0 && prev[n - 1].kind == f.speaker then
      prev[..n - 1] + [Item(f.speaker, prev[n - 1].text + f.text)]
    else
      prev + [Item(f.speaker, f.text)]
  }

  /** A merged fragment's text ends up, whole, at the end of the concatenated transcript. */
  lemma MergeKeepsText(prev: seq<Item>, f: Fragment)
    ensures Flatten(Merge(prev, f)) == Flatten(prev) + f.text
  {
    var n := |prev|;
    if n > 0 && prev[n - 1].kind == f.speaker {
      var keep := prev[..n - 1];
      assert prev == keep + [prev[n - 1]];
      FlattenSnoc(keep, prev[n - 1]);
      FlattenSnoc(keep, Item(f.speaker, prev[n - 1].text + f.text));
    } else {
      FlattenSnoc(prev, Item(f.speaker, f.text));
    }
  }

  /** Merging a fragment never puts two turns of one speaker side by side. */
  lemma MergeKeepsAlternating(prev: seq<Item>, f: Fragment)
    ensures Alternating(prev) ==> Alternating(Merge(prev, f))
  {
  }

  lemma FlattenSnoc(items: seq<Item>, x: Item)
    ensures Flatten(items + [x]) == Flatten(items) + x.text
  {
    assert (items + [x])[..|items|] == items;
  }

  /** The text a message contributes: its output transcription if any, else its input transcription. */
  function Received(output: Option<string>, input: Option<string>): string {
    if output.Some? then output.value else if input.Some? then input.value else ""
  }

  /**
   * The transcript update for one live-session message: the examiner's
   * output transcription when present, otherwise the student's input
   * transcription, otherwise nothing.
   */
  function OnTranscription(prev: seq<Item>, output: Option<string>, input: Option<string>): (r: seq<Item>)
    ensures Flatten(r) == Flatten(prev) + Received(output, input)
    ensures Alternating(prev) ==> Alternating(r)
    ensures output.Some? ==> |r| > 0 && r[|r| - 1].kind == Model
    ensures output.None? && input.Some? ==> |r| > 0 && r[|r| - 1].kind == User
    ensures output.None? && input.None? ==> r == prev
  {
    if output.Some? || input.Some? then
      var f := if output.Some? then Fragment(Model, output.value) else Fragment(User, input.value);
      MergeKeepsText(prev, f);
      MergeKeepsAlternating(prev, f);
      Merge(prev, f)
    else prev
  }

  /** When a message carries both transcriptions, the input one is ignored. */
  lemma OutputWins(prev: seq<Item>, output: string, input: Option<string>)
    ensures OnTranscription(prev, Some(output), input) == OnTranscription(prev, Some(output), None)
  {
  }

  /** The transcript built from an empty list by a sequence of fragments. */
  function Aggregate(fs: seq<Fragment>): (r: seq<Item>)
    ensures |r| <= |fs|
    ensures fs != [] ==> |r| > 0 && r[|r| - 1].kind == fs[|fs| - 1].speaker
  {
    if fs == [] then [] else Merge(Aggregate(fs[..|fs| - 1]), fs[|fs| - 1])
  }

  /**
   * However the fragments arrive, the turns alternate between the two
   * speakers and their texts, run together, are the fragments' texts in
   * arrival order.
   */
  lemma {:induction false} AggregateInvariants(fs: seq<Fragment>)
    ensures Alternating(Aggregate(fs))
    ensures Flatten(Aggregate(fs)) == Concat(fs)
  {
    if fs != [] {
      var init, f := fs[..|fs| - 1], fs[|fs| - 1];
      AggregateInvariants(init);
      MergeKeepsText(Aggregate(init), f);
      MergeKeepsAlternating(Aggregate(init), f);
    }
  }

  /**
   * A run of fragments from one speaker that follows nothing or the other
   * speaker becomes exactly one new turn holding the run's text.
   */
  lemma {:induction false} RunFormsOneTurn(fs: seq<Fragment>, gs: seq<Fragment>, s: Speaker)
    requires |gs| > 0 && forall i :: 0 <= i < |gs| ==> gs[i].speaker == s
    requires fs == [] || fs[|fs| - 1].speaker != s
    ensures Aggregate(fs + gs) == Aggregate(fs) + [Item(s, Concat(gs))]
  {
    var m := |gs|;
    var last, init := gs[m - 1], gs[..m - 1];
    if m == 1 {
      assert gs == [last] && Concat(gs) == last.text;
      FirstOfRun(fs, last);
    } else {
      RunFormsOneTurn(fs, init, s);
      assert last.speaker == s;
      calc {
        Aggregate(fs + gs);
        { SplitLast(fs, gs); }
        Aggregate((fs + init) + [last]);
        { LaterOfRun(fs + init, last, Aggregate(fs), Item(s, Concat(init))); }
        Aggregate(fs) + [Item(s, Concat(init) + last.text)];
        { assert Concat(gs) == Concat(init) + last.text; }
        Aggregate(fs) + [Item(s, Concat(gs))];
      }
    }
  }

  lemma SplitLast<T>(xs: seq<T>, ys: seq<T>)
    requires |ys| > 0
    ensures xs + ys == (xs + ys[..|ys| - 1]) + [ys[|ys| - 1]]
  {
    assert ys == ys[..|ys| - 1] + [ys[|ys| - 1]];
  }

  /** A fragment from the speaker of the last turn is added to that turn. */
  lemma LaterOfRun(fs: seq<Fragment>, f: Fragment, keep: seq<Item>, x: Item)
    requires Aggregate(fs) == keep + [x] && x.kind == f.speaker
    ensures Aggregate(fs + [f]) == keep + [Item(f.speaker, x.text + f.text)]
  {
    FoldStep(fs, f);
    MergeExtends(keep, x, f);
  }

  /** A fragment after nothing or after the other speaker opens a turn of its own. */
  lemma FirstOfRun(fs: seq<Fragment>, f: Fragment)
    requires fs == [] || fs[|fs| - 1].speaker != f.speaker
    ensures Aggregate(fs + [f]) == Aggregate(fs) + [Item(f.speaker, f.text)]
  {
    FoldStep(fs, f);
    MergeOpens(Aggregate(fs), f);
  }

  lemma FoldStep(fs: seq<Fragment>, f: Fragment)
    ensures Aggregate(fs + [f]) == Merge(Aggregate(fs), f)
  {
    assert (fs + [f])[..|fs|] == fs;
  }

  lemma MergeOpens(prev: seq<Item>, f: Fragment)
    requires prev == [] || prev[|prev| - 1].kind != f.speaker
    ensures Merge(prev, f) == prev + [Item(f.speaker, f.text)]
  {
  }

  lemma MergeExtends(keep: seq<Item>, x: Item, f: Fragment)
    requires x.kind == f.speaker
    ensures Merge(keep + [x], f) == keep + [Item(f.speaker, x.text + f.text)]
  {
    assert (keep + [x])[..|keep|] == keep;
  }

  /** Turns other than the last are sealed: later fragments never change them. */
  lemma {:induction false} SealedTurnsStable(fs: seq<Fragment>, gs: seq<Fragment>)
    ensures |Aggregate(fs + gs)| >= |Aggregate(fs)|
    ensures forall i :: 0 <= i < |Aggregate(fs)| - 1 ==> Aggregate(fs + gs)[i] == Aggregate(fs)[i]
  {
    if gs != [] {
      var init := gs[..|gs| - 1];
      assert (fs + gs)[..|fs + gs| - 1] == fs + init;
      assert (fs + gs)[|fs + gs| - 1] == gs[|gs| - 1];
      SealedTurnsStable(fs, init);
    } else {
      assert fs + gs == fs;
    }
  }

  /** The label a turn gets in the evaluation prompt. */
  function Label(k: Speaker): string {
    if k == User then "Student" else "Examiner"
  }

  /** One transcript line of the evaluation prompt: "Student: text" or "Examiner: text". */
  function Line(item: Item): string {
    Label(item.kind) + ": " + item.text
  }

  /** The transcript's lines joined with newlines. */
  function Render(items: seq<Item>): string {
    if items == [] then ""
    else if |items| == 1 then Line(items[0])
    else Render(items[..|items| - 1]) + "\n" + Line(items[|items| - 1])
  }

  /** Where the line of turn `i` starts in `Render(items)`. */
  function LineStart(items: seq<Item>, i: nat): nat
    requires i < |items|
  {
    if i == 0 then 0 else |Render(items[..i])| + 1
  }

  /** Rendering a prefix of the turns gives a prefix of the rendering. */
  lemma {:induction false} RenderPrefix(items: seq<Item>, k: nat)
    requires 0 < k <= |items|
    ensures |Render(items[..k])| <= |Render(items)|
    ensures Render(items)[..|Render(items[..k])|] == Render(items[..k])
    decreases |items| - k
  {
    if k < |items| {
      RenderPrefix(items, k + 1);
      RenderStep(items, k);
      var a := Render(items[..k]);
      var b := Render(items[..k + 1]);
      assert b[..|a|] == a;
      PrefixOfPrefix(Render(items), b, a);
    } else {
      assert items[..k] == items;
    }
  }

  /** Rendering one more turn adds a newline and that turn's line. */
  lemma RenderStep(items: seq<Item>, k: nat)
    requires 0 < k < |items|
    ensures Render(items[..k + 1]) == Render(items[..k]) + "\n" + Line(items[k])
  {
    var p := items[..k + 1];
    assert p[..|p| - 1] == items[..k];
  }

  lemma PrefixOfPrefix<T>(s: seq<T>, b: seq<T>, a: seq<T>)
    requires |b| <= |s| && s[..|b|] == b && |a| <= |b| && b[..|a|] == a
    ensures s[..|a|] == a
  {
    assert forall i :: 0 <= i < |a| ==> s[i] == b[i];
  }

  /**
   * The rendered transcript is exactly the turns' lines in order, each line
   * after the first preceded by a newline and nothing else in between.
   */
  lemma {:induction false} RenderShowsEachLine(items: seq<Item>, i: nat)
    requires i < |items|
    ensures LineStart(items, i) + |Line(items[i])| <= |Render(items)|
    ensures Render(items)[LineStart(items, i)..LineStart(items, i) + |Line(items[i])|] == Line(items[i])
    ensures i > 0 ==> Render(items)[LineStart(items, i) - 1] == '\n'
    ensures i + 1 < |items| ==> LineStart(items, i + 1) == LineStart(items, i) + |Line(items[i])| + 1
    ensures i + 1 == |items| ==> |Render(items)| == LineStart(items, i) + |Line(items[i])|
  {
    var p := items[..i + 1];
    RenderPrefix(items, i + 1);
    assert p[..|p| - 1] == items[..i];
    assert p[|p| - 1] == items[i];
    var whole := Render(items);
    if i == 0 {
      assert Render(p) == Line(items[0]);
      assert whole[..|Render(p)|] == Line(items[0]);
    } else {
      assert Render(p) == Render(items[..i]) + "\n" + Line(items[i]);
      var s := LineStart(items, i);
      assert whole[..|Render(p)|] == Render(p);
      assert whole[s..s + |Line(items[i])|] == Render(p)[s..];
      assert whole[s - 1] == Render(p)[s - 1];
    }
    if i + 1 == |items| {
      assert p == items;
    }
  }

  /** The fixed instruction that precedes the transcript in the evaluation request. */
  const EvaluationHeader: string :=
    "Evaluate this IELTS speaking practice transcription and provide a JSON result following the structure: "
    + "{fluency: number, lexical: number, grammar: number, pronunciation: number, overall: number, feedback: string}. "
    + "Scores must be between 0 and 9 in increments of 0.5.\n        \n        Transcription:\n        "

  /** The text sent for scoring: the fixed instruction followed by the rendered transcript. */
  function EvaluationPrompt(items: seq<Item>): string {
    EvaluationHeader + Render(items)
  }

  /**
   * The scoring request shows every turn: it starts with the fixed
   * instruction, and after it the line of turn `i` sits at its place in the
   * rendering.
   */
  lemma PromptShowsEachLine(items: seq<Item>, i: nat)
    requires i < |items|
    ensures EvaluationPrompt(items)[..|EvaluationHeader|] == EvaluationHeader
    ensures |EvaluationHeader| + LineStart(items, i) + |Line(items[i])| <= |EvaluationPrompt(items)|
    ensures EvaluationPrompt(items)[|EvaluationHeader| + LineStart(items, i)..|EvaluationHeader| + LineStart(items, i) + |Line(items[i])|]
            == Line(items[i])
  {
    AfterHeaderShowsEachLine(EvaluationHeader, items, i);
  }

  /**
   * In the scoring request a newline comes right before each turn's line
   * but the first, and the last turn's line ends the request.
   */
  lemma PromptLineBounds(items: seq<Item>, i: nat)
    requires i < |items|
    ensures |EvaluationHeader| + LineStart(items, i) + |Line(items[i])| <= |EvaluationPrompt(items)|
    ensures i > 0 ==> EvaluationPrompt(items)[|EvaluationHeader| + LineStart(items, i) - 1] == '\n'
    ensures i + 1 == |items| ==> |EvaluationPrompt(items)| == |EvaluationHeader| + LineStart(items, i) + |Line(items[i])|
  {
    AfterHeaderLineBounds(EvaluationHeader, items, i);
  }

  /** The same placement of each line, behind any instruction text `header`. */
  lemma AfterHeaderShowsEachLine(header: string, items: seq<Item>, i: nat)
    requires i < |items|
    ensures |header| + LineStart(items, i) + |Line(items[i])| <= |header + Render(items)|
    ensures (header + Render(items))[|header| + LineStart(items, i)..|header| + LineStart(items, i) + |Line(items[i])|]
            == Line(items[i])
  {
    RenderShowsEachLine(items, i);
    ShiftedSlice(header, Render(items), Line(items[i]), LineStart(items, i));
  }

  /** Behind any instruction text, the newline before each line but the first, and the end after the last. */
  lemma AfterHeaderLineBounds(header: string, items: seq<Item>, i: nat)
    requires i < |items|
    ensures |header| + LineStart(items, i) + |Line(items[i])| <= |header + Render(items)|
    ensures i > 0 ==> (header + Render(items))[|header| + LineStart(items, i) - 1] == '\n'
    ensures i + 1 == |items| ==> |header + Render(items)| == |header| + LineStart(items, i) + |Line(items[i])|
  {
    RenderShowsEachLine(items, i);
    var r := Render(items);
    if i > 0 {
      assert (header + r)[|header| + LineStart(items, i) - 1] == r[LineStart(items, i) - 1];
    }
  }

  /** A piece found at `s` in `r` is found at `|h| + s` in `h + r`. */
  lemma ShiftedSlice<T>(h: seq<T>, r: seq<T>, piece: seq<T>, s: nat)
    requires s + |piece| <= |r| && r[s..s + |piece|] == piece
    ensures (h + r)[|h| + s..|h| + s + |piece|] == piece
  {
  }
}
