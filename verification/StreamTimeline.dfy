/** The tool timeline: open runs are counted right, completions close the latest run, and the end closes all. */
module StreamTimeline {
  import opened Options
  import opened StreamTracker

  predicate RunsTool(entry: Entry, name: string) { entry.name == name && entry.state == Running }

  /** How many of the first `n` entries are running runs of a tool. */
  function OpenRuns(entries: seq<Entry>, name: string, n: nat): nat
    requires n <= |entries|
  {
    if n == 0 then 0
    else OpenRuns(entries, name, n - 1) + if RunsTool(entries[n - 1], name) then 1 else 0
  }

  ghost predicate CountsOk(s: Tools) {
    forall name: string :: Count(s.running, name) == OpenRuns(s.entries, name, |s.entries|)
  }

  ghost predicate NoQuestions(s: Tools) { forall k :: 0 <= k < |s.entries| ==> !Asks(s.entries[k].name) }

  ghost predicate TimelineOk(s: Tracker) {
    && NoQuestions(s.tools)
    && if s.terminal.None? then CountsOk(s.tools)
       else forall k :: 0 <= k < |s.tools.entries| ==> s.tools.entries[k].state != Running
  }

  lemma {:induction false} SameRuns(a: seq<Entry>, b: seq<Entry>, name: string, n: nat)
    requires n <= |a| && n <= |b| && a[..n] == b[..n]
    ensures OpenRuns(a, name, n) == OpenRuns(b, name, n)
  {
    if n > 0 {
      assert a[n - 1] == a[..n][n - 1] == b[n - 1];
      assert a[..n - 1] == a[..n][..n - 1] == b[..n - 1];
      SameRuns(a, b, name, n - 1);
    }
  }

  lemma {:induction false} RunsAfterChange(entries: seq<Entry>, i: nat, entry: Entry, name: string, n: nat)
    requires i < |entries| && n <= |entries| && entries[i].state == Running
    requires entry.name == entries[i].name && entry.state != Running
    ensures OpenRuns(entries[i := entry], name, n)
         == OpenRuns(entries, name, n) - if i < n && entries[i].name == name then 1 else 0
  {
    if n > 0 {
      RunsAfterChange(entries, i, entry, name, n - 1);
    }
  }

  lemma {:induction false} NoRuns(entries: seq<Entry>, name: string, n: nat)
    requires n <= |entries| && LastRunning(entries, name, n) == |entries|
    ensures OpenRuns(entries, name, n) == 0
  {
    if n > 0 {
      NoRuns(entries, name, n - 1);
    }
  }

  lemma {:induction false} SomeRun(entries: seq<Entry>, i: nat, name: string, n: nat)
    requires i < n <= |entries| && entries[i].name == name && entries[i].state == Running
    ensures OpenRuns(entries, name, n) > 0
  {
    if i < n - 1 {
      SomeRun(entries, i, name, n - 1);
    }
  }

  lemma CountAt(running: map<string, nat>, name: string, n: nat, other: string)
    ensures Count(running[name := n], other) == if other == name then n else Count(running, other)
  {
  }

  /** Closing the latest run takes one off its tool's count and off no other. */
  lemma ClosingCounts(s: Tools, name: string, i: nat, entry: Entry)
    requires CountsOk(s) && i < |s.entries| && s.entries[i].name == name && s.entries[i].state == Running
    requires entry.name == name && entry.state != Running
    ensures Count(s.running, name) > 0
    ensures CountsOk(Tools(s.running[name := Count(s.running, name) - 1], s.entries[i := entry]))
  {
    hide Count;
    SomeRun(s.entries, i, name, |s.entries|);
    var t := Tools(s.running[name := Count(s.running, name) - 1], s.entries[i := entry]);
    forall other: string ensures Count(t.running, other) == OpenRuns(t.entries, other, |t.entries|) {
      RunsAfterChange(s.entries, i, entry, other, |s.entries|);
      CountAt(s.running, name, Count(s.running, name) - 1, other);
    }
  }

  function CountWith(running: map<string, nat>, entry: Entry): nat {
    Count(running, entry.name) + if entry.state == Running then 1 else 0
  }

  /** An appended entry adds one to its tool's count exactly when it is running. */
  lemma AppendingCounts(s: Tools, entry: Entry)
    requires CountsOk(s)
    ensures CountsOk(Tools(s.running[entry.name := CountWith(s.running, entry)], s.entries + [entry]))
  {
    hide Count;
    var n := CountWith(s.running, entry);
    var t := Tools(s.running[entry.name := n], s.entries + [entry]);
    forall other: string ensures Count(t.running, other) == OpenRuns(t.entries, other, |t.entries|) {
      assert t.entries[..|s.entries|] == s.entries == s.entries[..|s.entries|];
      SameRuns(s.entries, t.entries, other, |s.entries|);
      CountAt(s.running, entry.name, n, other);
    }
  }

  lemma CountIsZero(s: Tools, name: string)
    requires CountsOk(s) && LastRunning(s.entries, name, |s.entries|) == |s.entries|
    ensures Count(s.running, name) == 0
  {
    NoRuns(s.entries, name, |s.entries|);
  }

  lemma ToolKeeps(s: Tools, e: Event)
    requires e.Tool? && CountsOk(s) && NoQuestions(s)
    ensures CountsOk(OnTool(s, e)) && NoQuestions(OnTool(s, e))
  {
    hide CountsOk, Asks, LastRunning, SkillOf;
    var name := NameOf(e);
    if !Asks(name) && e.report == ToolStarted {
      AppendingCounts(s, NewEntry(e, Running));
    } else if !Asks(name) && e.report != ToolOther {
      var state := if e.report == ToolCompleted then Done else Broken;
      var i := LastRunning(s.entries, name, |s.entries|);
      if i < |s.entries| {
        ClosingCounts(s, name, i, ClosedEntry(s.entries[i], e, state));
      } else {
        CountIsZero(s, name);
        AppendingCounts(s, NewEntry(e, state));
      }
    }
  }

  lemma TakeKeeps(s: Tracker, row: Row)
    requires TimelineOk(s) && s.terminal.None?
    ensures TimelineOk(Take(s, row))
  {
    hide OnText, Asks, CountsOk, OnTool;
    if row.event.Tool? {
      ToolKeeps(s.tools, row.event);
    }
  }

  /**
   * Until the terminal event each tool's counter is the number of its running entries; after it no entry
   * is running. Questions to the person never enter the timeline.
   */
  lemma {:induction false} TimelineHolds(s: Tracker, rows: seq<Row>)
    requires TimelineOk(s)
    ensures TimelineOk(Consume(s, rows))
    decreases rows
  {
    hide TimelineOk, Take, Foreign;
    if rows != [] && s.terminal.None? && !Foreign(s, rows[0].event) {
      TakeKeeps(s, rows[0]);
      TimelineHolds(Take(s, rows[0]), rows[1..]);
    }
  }

  lemma TimelineFromStart(turnId: Option<string>, cursor: nat, rows: seq<Row>)
    ensures var s := Consume(Opened(turnId, cursor), rows);
      && (s.terminal.None? ==>
            forall name: string ::
              Count(s.tools.running, name) == OpenRuns(s.tools.entries, name, |s.tools.entries|))
      && (s.terminal.Some? ==> forall k :: 0 <= k < |s.tools.entries| ==> s.tools.entries[k].state != Running)
      && (forall k :: 0 <= k < |s.tools.entries| ==> !Asks(s.tools.entries[k].name))
  {
    hide Consume, Asks;
    assert TimelineOk(Opened(turnId, cursor));
    TimelineHolds(Opened(turnId, cursor), rows);
  }

  /** The skill a report is about: the one it names, or what a run of the skill tool is described as. */
  function Skill(e: Event): string
    requires e.Tool?
  {
    if e.skill != "" then e.skill else if Lower(e.name) == "skill" then e.description else ""
  }

  lemma SkillIs(e: Event)
    requires e.Tool?
    ensures SkillOf(e) == Skill(e)
  {
    assert |Lower("subagent")| == 8 && |Lower("")| == 0;
  }

  /** What a report says beyond the state: fields it leaves out stay as they were. */
  ghost predicate Updated(before: Entry, after: Entry, e: Event)
    requires e.Tool?
  {
    && after.name == before.name && after.subagent == before.subagent && after.nested == before.nested
    && after.description == (if e.description == "" then before.description else e.description)
    && after.skill == (if Skill(e) == "" then before.skill else Skill(e))
  }

  /** What a report says of a run nobody had announced. */
  ghost predicate Described(entry: Entry, e: Event)
    requires e.Tool?
  {
    && entry.name == (if e.name == "" then "subagent" else e.name) && entry.nested == e.nested
    && entry.description == e.description && entry.skill == Skill(e)
    && (entry.subagent <==> e.subagent || entry.name == "subagent" || entry.name == "subagent_fork"
                            || entry.name == "create_task")
  }

  /**
   * A completion closes the most recently started running run of its tool, or adds a closed entry when none is
   * running. The entry says whether the run succeeded, and what the report adds.
   */
  lemma CompletionClosesTheLatest(s: Tools, e: Event)
    requires e.Tool? && !Asks(NameOf(e)) && (e.report == ToolCompleted || e.report == ToolFailed)
    ensures var (t, name) := (OnTool(s, e).entries, NameOf(e));
      var state := if e.report == ToolCompleted then Done else Broken;
      || (exists i :: 0 <= i < |s.entries| && s.entries[i].name == name && s.entries[i].state == Running
            && (forall k :: i < k < |s.entries| ==> s.entries[k].name != name || s.entries[k].state != Running)
            && |t| == |s.entries| && t[i].state == state && Updated(s.entries[i], t[i], e)
            && forall k :: 0 <= k < |t| && k != i ==> t[k] == s.entries[k])
      || ((forall k :: 0 <= k < |s.entries| ==> s.entries[k].name != name || s.entries[k].state != Running)
            && |t| == |s.entries| + 1 && t[..|s.entries|] == s.entries
            && t[|s.entries|].state == state && Described(t[|s.entries|], e))
  {
    SkillIs(e);
    hide Asks, SkillOf, Skill;
    var i := LastRunning(s.entries, NameOf(e), |s.entries|);
    if i < |s.entries| {
      assert s.entries[i].name == NameOf(e);
    }
  }

  /** A start adds a running entry; other reports, and questions to the person, change nothing. */
  lemma StartOpensARun(s: Tools, e: Event)
    requires e.Tool? && (e.report == ToolStarted || e.report == ToolOther || Asks(NameOf(e)))
    ensures var t := OnTool(s, e);
      if e.report == ToolStarted && !Asks(NameOf(e)) then
        && |t.entries| == |s.entries| + 1 && t.entries[..|s.entries|] == s.entries
        && t.entries[|s.entries|].state == Running && Described(t.entries[|s.entries|], e)
      else t == s
  {
    SkillIs(e);
    hide Asks, SkillOf, Skill;
  }

  /** The end of the turn closes what still runs, well when the turn completed, and leaves the rest as it is. */
  lemma EndClosesTheRest(s: Tracker, row: Row)
    requires row.event.TurnEnded?
    ensures var (a, b) := (s.tools.entries, Take(s, row).tools.entries);
      && |b| == |a|
      && forall k :: 0 <= k < |a| ==>
           b[k] == if a[k].state != Running then a[k]
                   else a[k].(state := if row.event.how == Completed then Done else Broken)
  {
  }

  /** Names are compared without regard to case. */
  lemma QuestionsAreKnown()
    ensures Asks("AskUserQuestion") && Asks("ask_user_question") && Asks("ASKUSERQUESTION") && !Asks("bash")
  {
    assert Lower("AskUserQuestion") == "askuserquestion" && Lower("ASKUSERQUESTION") == "askuserquestion";
    assert Lower("ask_user_question") == "ask_user_question" && Lower("bash") == "bash";
  }
}
