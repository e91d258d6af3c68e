/** The recorder's output file: one JSON text per record, records set apart by a blank line. */
module JsonlWriter {
  import opened Prelude
  import opened Text
  import opened Json
  import JsonReading

  /** `JSON.stringify(record, null, indent)` uses at most ten spaces. */
  function Gap(indent: nat): nat { if indent > 10 then 10 else indent }

  function RecordTexts(records: seq<Json>, indent: nat): seq<string> {
    seq(|records|, i requires 0 <= i < |records| => Print(records[i], Gap(indent), 0))
  }

  /** The file that holds these texts. */
  function File(texts: seq<string>): string {
    if texts == [] then "" else Join(texts, "\n\n") + "\n"
  }

  lemma FileSnoc(texts: seq<string>, text: string)
    ensures File(texts + [text]) == File(texts) + ((if texts == [] then "" else "\n") + text + "\n")
  {
    if texts == [] {
      assert texts + [text] == [text];
    } else {
      JoinSnoc(texts, text, "\n\n");
      var j := Join(texts, "\n\n");
      assert j + "\n\n" + text + "\n" == j + "\n" + ("\n" + text + "\n");
    }
  }

  class JsonlWriter {
    var stream: string
    var closed: bool
    var first: bool
    const indent: nat
    ghost var records: seq<Json>

    ghost predicate Valid()
      reads this
    {
      stream == File(RecordTexts(records, indent)) && (first <==> records == [])
    }

    constructor (indent: nat)
      ensures Valid() && records == [] && !closed && this.indent == indent
    {
      stream, closed, first := "", false, true;
      this.indent := indent;
      records := [];
    }

    /** Nothing is written once the writer is closed. */
    method Write(obj: Json)
      requires Valid()
      modifies this
      ensures Valid() && closed == old(closed)
      ensures records == if closed then old(records) else old(records) + [obj]
      ensures old(stream) <= stream
    {
      if closed {
        return;
      }
      var prefix := if first then "" else "\n";
      first := false;
      var text := Print(obj, Gap(indent), 0);
      FileSnoc(RecordTexts(records, indent), text);
      assert RecordTexts(records + [obj], indent) == RecordTexts(records, indent) + [text];
      stream := stream + (prefix + text + "\n");
      records := records + [obj];
    }

    method Close()
      requires Valid()
      modifies this
      ensures Valid() && closed && records == old(records) && stream == old(stream)
    {
      closed := true;
    }
  }

  // ---- reading the file back ----

  /** Split a text on its blank lines. */
  function SplitBlank(s: string): seq<string>
    decreases |s|
  {
    match FirstBlank(s)
    case None => [s]
    case Some(i) => [s[..i]] + SplitBlank(s[i + 2..])
  }

  lemma {:induction false} SplitJoined(texts: seq<string>)
    requires texts != [] && forall t :: t in texts ==> Tidy(t, false)
    ensures SplitBlank(Join(texts, "\n\n")) == texts
  {
    var t := texts[0];
    assert Tidy(t, false);
    if |texts| == 1 {
      assert FirstBlank(t) == None;
    } else {
      var rest := Join(texts[1..], "\n\n");
      var s := t + "\n\n" + rest;
      assert forall k: nat :: k + 1 < |t| && BlankAt(s, k) ==> BlankAt(t, k);
      FirstBlankIs(s, |t|);
      assert s[..|t|] == t && s[|t| + 2..] == rest;
      SplitJoined(texts[1..]);
    }
  }

  /** The records' texts are recovered by splitting the file on blank lines: no `JSON.stringify`
      output, at any indentation, contains a blank line or starts or ends with a line break. */
  lemma FileSplitsIntoRecords(records: seq<Json>, indent: nat)
    requires records != []
    ensures var file := File(RecordTexts(records, indent));
            |file| > 0 && file[|file| - 1] == '\n' &&
            SplitBlank(file[..|file| - 1]) == RecordTexts(records, indent)
  {
    var texts := RecordTexts(records, indent);
    forall t | t in texts
      ensures Tidy(t, false)
    {
      var i :| 0 <= i < |texts| && texts[i] == t;
      PrintTidy(records[i], Gap(indent), 0);
    }
    SplitJoined(texts);
    var file := File(texts);
    assert file[..|file| - 1] == Join(texts, "\n\n");
  }

  /** So two files are equal only if they hold the same texts. */
  lemma FileDeterminesTexts(a: seq<Json>, b: seq<Json>, indent: nat)
    requires File(RecordTexts(a, indent)) == File(RecordTexts(b, indent))
    ensures RecordTexts(a, indent) == RecordTexts(b, indent)
  {
    if a != [] && b != [] {
      FileSplitsIntoRecords(a, indent);
      FileSplitsIntoRecords(b, indent);
    } else if a != [] {
      FileSplitsIntoRecords(a, indent);
    } else if b != [] {
      FileSplitsIntoRecords(b, indent);
    }
  }

  /** The file determines the records: two runs of the writer that leave the same file wrote the same records. */
  lemma FileDeterminesRecords(a: seq<Json>, b: seq<Json>, indent: nat)
    requires File(RecordTexts(a, indent)) == File(RecordTexts(b, indent))
    ensures a == b
  {
    FileDeterminesTexts(a, b, indent);
    assert |a| == |RecordTexts(a, indent)| == |RecordTexts(b, indent)| == |b|;
    forall i | 0 <= i < |a|
      ensures a[i] == b[i]
    {
      assert RecordTexts(a, indent)[i] == RecordTexts(b, indent)[i];
      JsonReading.PrintInjective(a[i], b[i], Gap(indent));
    }
  }
}
