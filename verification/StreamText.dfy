/** What the text and the thinking of a turn are made of, read off the rows alone. */
module StreamText {
  import opened Options
  import opened StreamTracker
  import opened StreamRuns

  /** The thinking deltas of the first `n` rows, one after the other. */
  function ThoughtsIn(rows: seq<Row>, n: nat): string
    requires n <= |rows|
  {
    if n == 0 then ""
    else ThoughtsIn(rows, n - 1) +
         match rows[n - 1].event
         case Thinking(Some(delta)) => delta
         case _ => ""
  }

  /** Of the text deltas and stream ends among the first `n` rows the last is a stream end. */
  predicate EndedIn(rows: seq<Row>, n: nat)
    requires n <= |rows|
  {
    n > 0 &&
    match rows[n - 1].event
    case StreamEnd(_) => true
    case TextDelta(Some(_), _) => false
    case _ => EndedIn(rows, n - 1)
  }

  /** The last stream named by a text delta or a stream end among the first `n` rows. */
  function StreamIn(rows: seq<Row>, n: nat): string
    requires n <= |rows|
  {
    if n == 0 then ""
    else
      match rows[n - 1].event
      case StreamEnd(id) => if id != "" then id else StreamIn(rows, n - 1)
      case TextDelta(Some(_), id) => if id != "" then id else StreamIn(rows, n - 1)
      case _ => StreamIn(rows, n - 1)
  }

  /** The text deltas of the first `n` rows, with a paragraph break where a named stream follows the end of another. */
  function TextIn(rows: seq<Row>, n: nat): string
    requires n <= |rows|
  {
    if n == 0 then ""
    else
      var before := TextIn(rows, n - 1);
      match rows[n - 1].event
      case TextDelta(Some(delta), id) =>
        var newStream := EndedIn(rows, n - 1) && id != "" && StreamIn(rows, n - 1) != "" && id != StreamIn(rows, n - 1);
        before + (if newStream && before != "" then "\n\n" else "") + delta
      case _ => before
  }

  /** The tracker holds the text and thinking of the rows it took. */
  ghost predicate Speaks(s: Tracker, rows: seq<Row>, n: nat)
    requires n <= |rows|
  {
    && s.voice == Voice(TextIn(rows, n), EndedIn(rows, n), StreamIn(rows, n))
    && s.thinking == ThoughtsIn(rows, n)
  }

  lemma TakeSpeaks(s: Tracker, rows: seq<Row>, n: nat)
    requires n < |rows| && Speaks(s, rows, n)
    ensures Speaks(Take(s, rows[n]), rows, n + 1)
  {
    hide OnTool, AtEnd;
  }

  lemma {:induction false} TakenSpeaks(s: Tracker, rows: seq<Row>, n: nat)
    requires n <= |rows| && Speaks(s, rows, n)
    ensures n + Taken(s, rows[n..]) <= |rows| && Speaks(Consume(s, rows[n..]), rows, n + Taken(s, rows[n..]))
    decreases |rows| - n
  {
    hide Speaks, Take, Foreign;
    if n < |rows| && s.terminal.None? && !Foreign(s, rows[n].event) {
      assert rows[n..][0] == rows[n] && rows[n..][1..] == rows[n + 1..];
      TakeSpeaks(s, rows, n);
      TakenSpeaks(Take(s, rows[n]), rows, n + 1);
    }
  }

  // ---- What the text means -------------------------------------------------------------------------------

  /** The text deltas of the first `n` rows, one after the other. */
  function DeltasIn(rows: seq<Row>, n: nat): string
    requires n <= |rows|
  {
    if n == 0 then ""
    else DeltasIn(rows, n - 1) +
         match rows[n - 1].event
         case TextDelta(Some(delta), _) => delta
         case _ => ""
  }

  predicate IsDelta(e: Event) { e.TextDelta? && e.delta.Some? }

  /** The stream a text delta or a stream end names; empty for none. */
  function StreamOf(e: Event): string { if IsDelta(e) || e.StreamEnd? then e.stream else "" }

  /** No text comes between two rows. */
  predicate NoText(rows: seq<Row>, j: nat, i: nat)
    requires i <= |rows|
  {
    forall k :: j < k < i ==> !IsDelta(rows[k].event)
  }

  /** No stream is named between two rows. */
  predicate NoName(rows: seq<Row>, j: nat, i: nat)
    requires i <= |rows|
  {
    forall k :: j < k < i ==> StreamOf(rows[k].event) == ""
  }

  /** A stream ended before row `i`, and no text has come since. */
  predicate AfterEnd(rows: seq<Row>, i: nat)
    requires i <= |rows|
  {
    exists j :: 0 <= j < i && rows[j].event.StreamEnd? && NoText(rows, j, i)
  }

  /** The stream named last before row `i` is another one than `id`. */
  predicate LastNamedDiffers(rows: seq<Row>, i: nat, id: string)
    requires i <= |rows|
  {
    exists j :: 0 <= j < i && StreamOf(rows[j].event) !in {"", id} && NoName(rows, j, i)
  }

  /** A paragraph break stands in front of a text delta: its stream is named, and another one ended before it. */
  predicate BreakBefore(rows: seq<Row>, i: nat)
    requires i < |rows|
  {
    var e := rows[i].event;
    IsDelta(e) && e.stream != "" && DeltasIn(rows, i) != "" && AfterEnd(rows, i) && LastNamedDiffers(rows, i, e.stream)
  }

  /** The text deltas of the first `n` rows with `gap` for the paragraph breaks. */
  function TextWith(rows: seq<Row>, n: nat, gap: string): string
    requires n <= |rows|
  {
    if n == 0 then ""
    else TextWith(rows, n - 1, gap) +
         match rows[n - 1].event
         case TextDelta(Some(delta), _) => (if BreakBefore(rows, n - 1) then gap else "") + delta
         case _ => ""
  }

  lemma {:induction false} EndedMeans(rows: seq<Row>, n: nat)
    requires n <= |rows|
    ensures EndedIn(rows, n) <==> AfterEnd(rows, n)
  {
    if n > 0 {
      EndedMeans(rows, n - 1);
      var e := rows[n - 1].event;
      if e.StreamEnd? {
        assert NoText(rows, n - 1, n);
      } else if EndedIn(rows, n) {
        var j :| 0 <= j < n - 1 && rows[j].event.StreamEnd? && NoText(rows, j, n - 1);
        assert NoText(rows, j, n);
      } else if j :| 0 <= j < n && rows[j].event.StreamEnd? && NoText(rows, j, n) {
        assert NoText(rows, j, n - 1);
      }
    }
  }

  /** `StreamIn` is the stream named last. */
  lemma {:induction false} NamedMeans(rows: seq<Row>, n: nat)
    requires n <= |rows|
    ensures StreamIn(rows, n) == "" ==> forall k :: 0 <= k < n ==> StreamOf(rows[k].event) == ""
    ensures StreamIn(rows, n) != "" ==>
      exists j :: 0 <= j < n && StreamOf(rows[j].event) == StreamIn(rows, n) && NoName(rows, j, n)
  {
    if n > 0 {
      NamedMeans(rows, n - 1);
      if StreamOf(rows[n - 1].event) != "" {
        assert StreamOf(rows[n - 1].event) == StreamIn(rows, n) && NoName(rows, n - 1, n);
      } else if StreamIn(rows, n) != "" {
        var j :| 0 <= j < n - 1 && StreamOf(rows[j].event) == StreamIn(rows, n - 1) && NoName(rows, j, n - 1);
        assert NoName(rows, j, n);
      }
    }
  }

  lemma LastNameIsOne(rows: seq<Row>, i: nat, j: nat, k: nat)
    requires i <= |rows| && j < i && k < i && NoName(rows, j, i) && NoName(rows, k, i)
    requires StreamOf(rows[j].event) != "" && StreamOf(rows[k].event) != ""
    ensures j == k
  {
  }

  lemma DiffersMeans(rows: seq<Row>, i: nat, id: string)
    requires i <= |rows|
    ensures LastNamedDiffers(rows, i, id) <==> StreamIn(rows, i) != "" && StreamIn(rows, i) != id
  {
    NamedMeans(rows, i);
    hide StreamIn, NoName;
    if StreamIn(rows, i) != "" {
      var j :| 0 <= j < i && StreamOf(rows[j].event) == StreamIn(rows, i) && NoName(rows, j, i);
      if k :| 0 <= k < i && StreamOf(rows[k].event) !in {"", id} && NoName(rows, k, i) {
        LastNameIsOne(rows, i, j, k);
      }
    }
  }

  /**
   * Without the breaks the text is the deltas in order, and a break stands in front of a delta exactly
   * where a named stream follows the end of another.
   */
  lemma {:induction false} TextMeans(rows: seq<Row>, n: nat)
    requires n <= |rows|
    ensures TextIn(rows, n) == TextWith(rows, n, "\n\n") && TextWith(rows, n, "") == DeltasIn(rows, n)
    ensures TextIn(rows, n) == "" <==> DeltasIn(rows, n) == ""
  {
    if n > 0 {
      TextMeans(rows, n - 1);
      var e := rows[n - 1].event;
      if IsDelta(e) {
        EndedMeans(rows, n - 1);
        DiffersMeans(rows, n - 1, e.stream);
        hide EndedIn, StreamIn, AfterEnd, LastNamedDiffers;
        var before := TextIn(rows, n - 1);
        assert before + ("" + e.delta.value) == before + "" + e.delta.value;
        assert before + ("\n\n" + e.delta.value) == before + "\n\n" + e.delta.value;
        assert "" + e.delta.value == e.delta.value;
      } else {
        assert TextWith(rows, n - 1, "") + "" == TextWith(rows, n - 1, "");
        assert TextWith(rows, n - 1, "\n\n") + "" == TextWith(rows, n - 1, "\n\n");
        assert DeltasIn(rows, n - 1) + "" == DeltasIn(rows, n - 1);
      }
    }
  }

  /**
   * Text and thinking are exactly those of the rows one pass takes, from the first on: the deltas in
   * order, and a paragraph break in front of a delta exactly where a named stream follows the end of
   * another.
   */
  lemma TextIsOfTheRows(turnId: Option<string>, cursor: nat, rows: seq<Row>)
    ensures var (s, n) := (Consume(Opened(turnId, cursor), rows), Taken(Opened(turnId, cursor), rows));
      && s.voice.text == TextWith(rows, n, "\n\n") && TextWith(rows, n, "") == DeltasIn(rows, n)
      && s.thinking == ThoughtsIn(rows, n)
  {
    hide Consume, Taken, TextWith, DeltasIn;
    assert rows[0..] == rows;
    TakenSpeaks(Opened(turnId, cursor), rows, 0);
    TextMeans(rows, Taken(Opened(turnId, cursor), rows));
  }
}
