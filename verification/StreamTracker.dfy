/** Following one turn of a session through a polled table of stream events. */
module StreamTracker {
  import opened Options

  datatype How = Completed | Failed | Interrupted | Stopped | Cancelled

  /** How a turn ended, as the tracker reports it. */
  datatype End = EndCompleted | EndFailed | EndStopped

  datatype ToolReport = ToolStarted | ToolCompleted | ToolFailed | ToolOther

  /** An event of the stream; absent strings are empty, as the code's truth tests treat them. */
  datatype Event =
    | TurnRunning(turn: string)
    | TurnEnded(how: How)
    | Thinking(delta: Option<string>)
    | TextDelta(delta: Option<string>, stream: string)
    | StreamEnd(stream: string)
    | Tool(name: string, report: ToolReport, description: string, skill: string, subagent: bool, nested: bool)
    | OtherEvent

  datatype Row = Row(rowId: nat, event: Event)

  datatype EntryState = Running | Done | Broken

  /** One line of the tool timeline (times aside). */
  datatype Entry = Entry(name: string, state: EntryState, description: string, skill: string, subagent: bool,
    nested: bool)

  /** The tool timeline, and how many runs of each tool are open. */
  datatype Tools = Tools(running: map<string, nat>, entries: seq<Entry>)

  /** The text so far, and the stream its last part came from. */
  datatype Voice = Voice(text: string, ended: bool, stream: string)

  datatype Tracker = Tracker(turnId: Option<string>, cursor: nat, seenRunning: bool, ownTurn: string,
                             voice: Voice, thinking: string, tools: Tools, terminal: Option<End>)

  function Opened(turnId: Option<string>, cursor: nat): Tracker {
    Tracker(turnId, cursor, false, "", Voice("", false, ""), "", Tools(map[], []), None)
  }

  // ---- One event ---------------------------------------------------------------------------------------

  function LowerChar(c: char): char { if 'A' <= c <= 'Z' then c + 32 as char else if c == '\U{212A}' then 'k' else c }

  /** Lower case, as far as comparing with an ASCII word needs it. */
  function Lower(s: string): string { seq(|s|, i requires 0 <= i < |s| => LowerChar(s[i])) }

  /** A running event the tracker does not go past: not its own turn's, once its own has been seen. */
  predicate Foreign(s: Tracker, e: Event) {
    var own := s.turnId.GetOr(s.ownTurn);
    e.TurnRunning? && s.seenRunning && (e.turn == "" || own == "" || e.turn != own)
  }

  function Count(running: map<string, nat>, name: string): nat { if name in running then running[name] else 0 }

  /** The last running entry of a tool, or the length when none is running. */
  function LastRunning(entries: seq<Entry>, name: string, n: nat): (i: nat)
    requires n <= |entries|
    ensures i < n || i == |entries|
    ensures i < n ==> entries[i].name == name && entries[i].state == Running
    ensures forall k :: 0 <= k < n && (i == |entries| || k > i) ==>
      entries[k].name != name || entries[k].state != Running
  {
    if n == 0 then |entries|
    else if entries[n - 1].name == name && entries[n - 1].state == Running then n - 1
    else LastRunning(entries, name, n - 1)
  }

  function NameOf(e: Event): string
    requires e.Tool?
  {
    if e.name == "" then "subagent" else e.name
  }

  /** Questions to the person are not part of the timeline. */
  predicate Asks(name: string) { Lower(name) == "askuserquestion" || Lower(name) == "ask_user_question" }

  function SkillOf(e: Event): string
    requires e.Tool?
  {
    if e.skill != "" then e.skill else if Lower(NameOf(e)) == "skill" then e.description else ""
  }

  function NewEntry(e: Event, state: EntryState): Entry
    requires e.Tool?
  {
    var name := NameOf(e);
    var subagent := e.subagent || name in {"subagent", "subagent_fork", "create_task"};
    Entry(name, state, e.description, SkillOf(e), subagent, e.nested)
  }

  function ClosedEntry(entry: Entry, e: Event, state: EntryState): Entry
    requires e.Tool?
  {
    entry.(state := state,
           description := if e.description != "" then e.description else entry.description,
           skill := if SkillOf(e) != "" then SkillOf(e) else entry.skill)
  }

  function OnTool(s: Tools, e: Event): Tools
    requires e.Tool?
  {
    var name := NameOf(e);
    var n := Count(s.running, name);
    if Asks(name) || e.report == ToolOther then s
    else if e.report == ToolStarted then
      Tools(s.running[name := n + 1], s.entries + [NewEntry(e, Running)])
    else
      var state := if e.report == ToolCompleted then Done else Broken;
      var i := LastRunning(s.entries, name, |s.entries|);
      Tools(s.running[name := if n > 0 then n - 1 else 0],
            if i < |s.entries| then s.entries[i := ClosedEntry(s.entries[i], e, state)]
            else s.entries + [NewEntry(e, state)])
  }

  function EndOf(how: How): End {
    match how
    case Completed => EndCompleted
    case Failed => EndFailed
    case _ => EndStopped
  }

  /** Close whatever still runs among the first `n` entries. */
  function CloseAll(entries: seq<Entry>, n: nat, state: EntryState): (r: seq<Entry>)
    requires n <= |entries|
    ensures |r| == |entries|
    ensures forall k :: 0 <= k < |r| ==>
      r[k] == if k < n && entries[k].state == Running then entries[k].(state := state) else entries[k]
  {
    if n == 0 then entries
    else
      var r := CloseAll(entries, n - 1, state);
      if r[n - 1].state == Running then r[n - 1 := r[n - 1].(state := state)] else r
  }

  function OnText(s: Voice, delta: string, stream: string): Voice {
    var gap := s.ended && stream != "" && s.stream != "" && stream != s.stream && s.text != "";
    Voice(s.text + (if gap then "\n\n" else "") + delta, false, if stream != "" then stream else s.stream)
  }

  function OnStreamEnd(s: Voice, stream: string): Voice {
    Voice(s.text, true, if stream != "" then stream else s.stream)
  }

  /** The end of the turn closes every entry still running. */
  function AtEnd(s: Tools, how: How): Tools {
    s.(entries := CloseAll(s.entries, |s.entries|, if how == Completed then Done else Broken))
  }

  /** The cursor moves to the row; a repeated running event of the own turn does nothing else. */
  function Take(s: Tracker, row: Row): Tracker {
    var t := s.(cursor := if row.rowId > s.cursor then row.rowId else s.cursor);
    match row.event
    case TurnRunning(turn) => if s.seenRunning then t else t.(seenRunning := true, ownTurn := turn)
    case TurnEnded(how) =>
      t.(terminal := Some(EndOf(how)), tools := AtEnd(s.tools, how))
    case Thinking(Some(delta)) => t.(thinking := s.thinking + delta)
    case TextDelta(Some(delta), stream) => t.(voice := OnText(s.voice, delta, stream))
    case StreamEnd(stream) => t.(voice := OnStreamEnd(s.voice, stream))
    case Tool(_, _, _, _, _, _) => t.(tools := OnTool(s.tools, row.event))
    case _ => t
  }

  /** All rows in one pass: up to the terminal event, and not past another turn's running event. */
  function Consume(s: Tracker, rows: seq<Row>): Tracker
    decreases rows
  {
    if rows == [] || s.terminal.Some? || Foreign(s, rows[0].event) then s else Consume(Take(s, rows[0]), rows[1..])
  }

  // ---- The tracker itself --------------------------------------------------------------------------------

  class StreamingReplyTracker {
    const turnId: Option<string>
    var cursor: nat
    var seenRunning: bool
    var ownTurn: string
    var text: string
    var thinking: string
    var streamEnded: bool
    var stream: string
    var running: map<string, nat>
    var entries: seq<Entry>
    var terminal: Option<End>

    function View(): Tracker
      reads this
    {
      Tracker(turnId, cursor, seenRunning, ownTurn, ViewVoice(), thinking, ViewTools(), terminal)
    }

    function ViewVoice(): Voice
      reads this
    {
      Voice(text, streamEnded, stream)
    }

    function ViewTools(): Tools
      reads this
    {
      Tools(running, entries)
    }

    constructor (turnId: Option<string>, cursor: nat)
      ensures View() == Opened(turnId, cursor)
    {
      this.turnId, this.cursor := turnId, cursor;
      seenRunning, ownTurn, text, thinking := false, "", "", "";
      streamEnded, stream, running, entries, terminal := false, "", map[], [], None;
    }

    method OnToolStatus(e: Event)
      requires e.Tool?
      modifies this`running, this`entries
      ensures ViewTools() == OnTool(old(ViewTools()), e)
    {
      hide Asks, NewEntry, ClosedEntry, LastRunning;
      var name := if e.name == "" then "subagent" else e.name;
      if Asks(name) {
        return;
      }
      var current := if name in running then running[name] else 0;
      match e.report
      case ToolStarted =>
        running := running[name := current + 1];
        entries := entries + [NewEntry(e, Running)];
      case ToolOther =>
      case _ =>
        var state := if e.report == ToolCompleted then Done else Broken;
        running := running[name := if current > 0 then current - 1 else 0];
        var i := FindLastRunning(name);
        if i < |entries| {
          entries := entries[i := ClosedEntry(entries[i], e, state)];
        } else {
          entries := entries + [NewEntry(e, state)];
        }
    }

    method FindLastRunning(name: string) returns (i: nat)
      ensures i == LastRunning(entries, name, |entries|)
    {
      var n: nat := |entries|;
      while n > 0
        invariant n <= |entries| && LastRunning(entries, name, n) == LastRunning(entries, name, |entries|)
      {
        if entries[n - 1].name == name && entries[n - 1].state == Running {
          return n - 1;
        }
        n := n - 1;
      }
      return |entries|;
    }

    method OnTurnEnded(how: How)
      modifies this`terminal, this`entries
      ensures terminal == Some(EndOf(how)) && ViewTools() == AtEnd(old(ViewTools()), how)
    {
      terminal := Some(EndOf(how));
      var state := if how == Completed then Done else Broken;
      for i := 0 to |entries|
        invariant terminal == Some(EndOf(how)) && |entries| == |old(entries)| &&
          entries == CloseAll(old(entries), i, state)
      {
        if entries[i].state == Running {
          entries := entries[i := entries[i].(state := state)];
        }
      }
    }

    method OnAssistantDelta(delta: string, id: string)
      modifies this`text, this`stream, this`streamEnded
      ensures ViewVoice() == OnText(old(ViewVoice()), delta, id)
    {
      if streamEnded && id != "" && stream != "" && id != stream && |text| > 0 {
        text := text + "\n\n";
      }
      if id != "" {
        stream := id;
      }
      streamEnded := false;
      text := text + delta;
    }

    /** One event of the window. */
    method OnEvent(row: Row)
      requires terminal.None? && !(row.event.TurnRunning? && seenRunning)
      modifies this
      ensures View() == Take(old(View()), row)
    {
      hide OnTool, OnText;
      if row.rowId > cursor {
        cursor := row.rowId;
      }
      match row.event
      case TurnRunning(turn) =>
        seenRunning := true;
        ownTurn := turn;
      case Thinking(Some(delta)) => thinking := thinking + delta;
      case TextDelta(Some(delta), id) => OnAssistantDelta(delta, id);
      case StreamEnd(id) =>
        streamEnded := true;
        if id != "" {
          stream := id;
        }
      case Tool(_, _, _, _, _, _) => OnToolStatus(row.event);
      case TurnEnded(how) => OnTurnEnded(how);
      case _ =>
    }

    method ProcessEvents(rows: seq<Row>)
      requires terminal.None?
      modifies this
      ensures View() == Consume(old(View()), rows)
    {
      hide OnTool, OnText, CloseAll;
      for i := 0 to |rows|
        invariant terminal.None? && Consume(View(), rows[i..]) == Consume(old(View()), rows)
      {
        assert rows[i..][1..] == rows[i + 1..];
        var evt := rows[i].event;
        if evt.TurnRunning? && seenRunning {
          var own := if turnId.Some? then turnId.value else ownTurn;
          if evt.turn == "" || own == "" || evt.turn != own {
            return;
          }
          if rows[i].rowId > cursor {
            cursor := rows[i].rowId;
          }
          continue;
        }
        OnEvent(rows[i]);
        if evt.TurnEnded? {
          return;
        }
      }
    }
  }
}
