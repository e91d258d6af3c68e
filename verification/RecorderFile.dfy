/** The text of the recorder's file: what a run of the recorder leaves on disk. */
module RecorderFile {
  import opened Prelude
  import opened Json
  import opened RecorderState
  import opened RecorderRuns
  import opened JsonlWriter

  /** `layout` says which JSON value is written for a record, times and copied fields included. */
  function Layouts(layout: OutRecord -> Json, output: seq<OutRecord>): seq<Json> {
    seq(|output|, i requires 0 <= i < |output| => layout(output[i]))
  }

  /** The texts of these records, as the writer prints them. */
  function Printed(layout: OutRecord -> Json, indent: nat, output: seq<OutRecord>): seq<string> {
    RecordTexts(Layouts(layout, output), indent)
  }

  /** The file in this state of the recorder. */
  function FileText(layout: OutRecord -> Json, indent: nat, s: State): string { File(Printed(layout, indent, s.output)) }

  lemma PrintedConcat(layout: OutRecord -> Json, indent: nat, a: seq<OutRecord>, b: seq<OutRecord>)
    ensures Printed(layout, indent, a + b) == Printed(layout, indent, a) + Printed(layout, indent, b)
  {
    assert Layouts(layout, a + b) == Layouts(layout, a) + Layouts(layout, b);
  }

  lemma {:induction false} FilePrefix(texts: seq<string>, more: seq<string>)
    ensures File(texts) <= File(texts + more)
    decreases |more|
  {
    if more == [] {
      assert texts + more == texts;
    } else {
      var n := |more| - 1;
      FilePrefix(texts, more[..n]);
      FileSnoc(texts + more[..n], more[n]);
      assert texts + more == texts + more[..n] + [more[n]];
    }
  }

  /** The file is only ever appended to: what is in it at some time is the beginning of it later. */
  lemma FileOnlyGrows(cfg: Config, states: seq<State>, inputs: seq<Input>, n: nat, m: nat,
                      layout: OutRecord -> Json, indent: nat)
    requires IsRun(cfg, states, inputs) && n <= m < |states|
    ensures FileText(layout, indent, states[n]) <= FileText(layout, indent, states[m])
  {
    OutputGrows(cfg, states, inputs, n, m);
    var a, b := states[n].output, states[m].output;
    assert b == a + b[|a|..];
    PrintedConcat(layout, indent, a, b[|a|..]);
    FilePrefix(Printed(layout, indent, a), Printed(layout, indent, b[|a|..]));
  }

  /** The file a cleanup leaves, however long the process still runs and whatever still completes: split on
      blank lines, it is the texts of what was written before, then of every record that was live, in map
      order, and last that of the stop record. */
  lemma CleanupLeavesFile(cfg: Config, states: seq<State>, inputs: seq<Input>, n: nat, m: nat,
                          layout: OutRecord -> Json, indent: nat)
    requires IsRun(cfg, states, inputs) && n < m < |states|
    requires inputs[n].CleanupCalled? && !states[n].cleaned
    ensures var s, file := states[n], FileText(layout, indent, states[m]);
            && (forall k :: k in s.httpRecords.keys ==> k in s.httpRecords.vals)
            && |file| > 0 && file[|file| - 1] == '\n'
            && SplitBlank(file[..|file| - 1]) ==
                 Printed(layout, indent, s.output) + Printed(layout, indent, RecordsInOrder(s.httpRecords))
                 + Printed(layout, indent, [Stopped(inputs[n].reason)])
  {
    var s, reason := states[n], inputs[n].reason;
    CleanupWritesEverything(cfg, states, inputs, n, reason);
    assert states[n + 1] == Cleanup(s, reason);
    QuietAfterCleanup(cfg, states, inputs, n + 1, m);
    var live := RecordsInOrder(s.httpRecords);
    assert states[m].output == s.output + live + [Stopped(reason)];
    PrintedConcat(layout, indent, s.output + live, [Stopped(reason)]);
    PrintedConcat(layout, indent, s.output, live);
    FileSplitsIntoRecords(Layouts(layout, states[m].output), indent);
  }

  /** If records laid out alike are alike, the file tells what was recorded: runs that leave the same file
      wrote the same records, in the same order. */
  lemma FileTellsOutput(s: State, t: State, layout: OutRecord -> Json, indent: nat)
    requires forall a, b :: layout(a) == layout(b) ==> a == b
    requires FileText(layout, indent, s) == FileText(layout, indent, t)
    ensures s.output == t.output
  {
    var a, b := Layouts(layout, s.output), Layouts(layout, t.output);
    FileDeterminesRecords(a, b, indent);
    assert |a| == |s.output| && |b| == |t.output|;
    assert forall i :: 0 <= i < |a| ==> layout(s.output[i]) == a[i] == b[i] == layout(t.output[i]);
  }
}
