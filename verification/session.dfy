/** The background page's recording session (background.js:54-259): the one
    authority over whether a recording is in progress and over the event log.
    Each runtime message or browser notification is one transition; what the
    browser answers inside the transition (the current window, the active
    tabs, a tab record, the screen size) and the clock's ISO timestamps are
    inputs. A transition runs its callbacks to completion before the next
    input. */
module Session {
  import opened Values
  import BackgroundXml
  import Serializer

  /** One recorded event as `addEventToLog` stores it. */
  datatype Entry = Entry(kind: string, time: string, details: Value, priority: Option<Value>)

  /** The entry as a plain object: `type`, `time`, `details` and, for file
      uploads only, `priority`. */
  function EntryValue(e: Entry): Value {
    Obj([Field("type", Str(e.kind)), Field("time", Str(e.time)), Field("details", e.details)]
        + (match e.priority case Some(p) => [Field("priority", p)] case None => []))
  }

  function EntryValues(log: seq<Entry>): (r: seq<Value>)
    ensures |r| == |log|
    ensures forall i :: 0 <= i < |log| ==> r[i] == EntryValue(log[i])
  {
    if log == [] then [] else [EntryValue(log[0])] + EntryValues(log[1..])
  }

  datatype Session = Session(
    recording: bool,
    log: seq<Entry>,
    activeTabId: Option<int>,
    windowId: Option<int>,
    windowState: string)

  /** The variables as the background page's load leaves them. */
  const Initial: Session := Session(false, [], None, None, "normal")

  datatype Window = Window(id: int, state: string, width: int, height: int)
  datatype Tab = Tab(id: int, url: string)

  datatype Reply =
    | Success
    | Failure(error: string)
    | RecordingState(isRecording: bool)
    | XmlLog(log: string)
    | NoReply

  /** What a transition leaves behind: the new session, the reply to the
      sender, and the recording state pushed to every tab, if any. */
  datatype Outcome = Outcome(session: Session, reply: Reply, broadcast: Option<bool>)

  datatype Input =
    | StartRecording(window: Window, tabs: seq<Tab>, windowFirst: bool, windowTime: string, tabTime: string)
    | StopRecording
    | GetEventLog
    | LogEvent(kind: string, details: Option<Value>, priority: Option<Value>, time: string)
    | CheckRecordingState
    | NavigationCompleted(frameId: int, tab: Option<Tab>, time: string)
    | TabActivated(tabId: int, tab: Option<Tab>, time: string)
    | BoundsChanged(windowId: int, updated: Window, screenWidth: int, screenHeight: int, time: string)
    | DownloadCreated(filename: string, url: string, time: string)

  /** `addEventToLog`: the entry goes at the end; nothing already logged
      moves or changes. */
  function Append(s: Session, e: Entry): (r: Session)
    ensures r.log == s.log + [e]
    ensures r.log[..|s.log|] == s.log
    ensures r == s.(log := r.log)
  {
    s.(log := s.log + [e])
  }

  /** `isWindowMaximized`: maximized by state, or at least screen-sized in
      both dimensions. */
  function IsWindowMaximized(w: Window, screenWidth: int, screenHeight: int): (b: bool)
    ensures w.state == "maximized" ==> b
    ensures w.width >= screenWidth && w.height >= screenHeight ==> b
    ensures w.state != "maximized" && (w.width < screenWidth || w.height < screenHeight) ==> !b
  {
    w.state == "maximized" || (w.width >= screenWidth && w.height >= screenHeight)
  }

  /** The entry a start's `windows.getCurrent` callback logs. */
  function WindowEntry(w: Window, time: string): Entry {
    Entry("windowState", time, Obj([Field("state", Str(w.state))]), None)
  }

  /** The entry a page of a tab is logged with, by a start and by a
      completed navigation. */
  function NavEntry(tab: Tab, time: string): Entry {
    Entry("navigation", time, Obj([Field("url", Str(tab.url))]), None)
  }

  // ---------------------------------------------------------------------------
  // Start and stop (background.js:73-147)
  // ---------------------------------------------------------------------------

  /** The `windows.getCurrent` callback of a start. */
  function WindowCallback(s: Session, w: Window, time: string): Session {
    Append(s.(windowId := Some(w.id), windowState := w.state), WindowEntry(w, time))
  }

  /** The `tabs.query` callback of a start: the first active tab becomes the
      active tab and its page is logged; without one the start is reported
      failed, although recording stays on. */
  function TabsCallback(s: Session, tabs: seq<Tab>, time: string): (Session, Reply) {
    if |tabs| > 0 then
      (Append(s.(activeTabId := Some(tabs[0].id)), NavEntry(tabs[0], time)), Success)
    else (s, Failure("No active tab"))
  }

  function Start(s: Session, w: Window, tabs: seq<Tab>, windowFirst: bool, windowTime: string, tabTime: string): (r: Outcome)
    ensures s.recording ==> r == Outcome(s, Failure("Already recording"), None)
    ensures !s.recording ==>
      && r.session.recording
      && r.session.windowId == Some(w.id) && r.session.windowState == w.state
      && |r.session.log| == (if |tabs| > 0 then 2 else 1)
      && (forall i :: 0 <= i < |r.session.log| ==> r.session.log[i].kind in {"windowState", "navigation"})
      && r.session.log == (if |tabs| == 0 then [WindowEntry(w, windowTime)]
                           else if windowFirst then [WindowEntry(w, windowTime), NavEntry(tabs[0], tabTime)]
                           else [NavEntry(tabs[0], tabTime), WindowEntry(w, windowTime)])
      && (r.reply == Success <==> |tabs| > 0)
      && (|tabs| == 0 ==> r.reply == Failure("No active tab") && r.session.activeTabId == s.activeTabId)
      && (|tabs| > 0 ==> r.session.activeTabId == Some(tabs[0].id) && r.broadcast == Some(true))
  {
    if s.recording then Outcome(s, Failure("Already recording"), None)
    else
      var cleared := s.(recording := true, log := []);
      if windowFirst then
        var afterWindow := WindowCallback(cleared, w, windowTime);
        var (t, reply) := TabsCallback(afterWindow, tabs, tabTime);
        Outcome(t, reply, if |tabs| > 0 then Some(true) else None)
      else
        var (t, reply) := TabsCallback(cleared, tabs, tabTime);
        Outcome(WindowCallback(t, w, windowTime), reply, if |tabs| > 0 then Some(true) else None)
  }

  function Stop(s: Session): (r: Outcome)
    ensures !s.recording ==> r == Outcome(s, Failure("No recording in progress"), None)
    ensures s.recording ==> r == Outcome(s.(recording := false), Success, Some(false))
    ensures r.session.log == s.log
  {
    if !s.recording then Outcome(s, Failure("No recording in progress"), None)
    else Outcome(s.(recording := false), Success, Some(false))
  }

  // ---------------------------------------------------------------------------
  // Logging (background.js:149-180)
  // ---------------------------------------------------------------------------

  /** The entry a `logEvent` message becomes: missing or falsy details become
      an empty object; only a file upload carries a priority, "normal" unless
      the message gives a truthy one. */
  function MakeEntry(kind: string, details: Option<Value>, priority: Option<Value>, time: string): (e: Entry)
    ensures e.kind == kind && e.time == time
    ensures details.Some? && Truthy(details.value) ==> e.details == details.value
    ensures details.None? || !Truthy(details.value) ==> e.details == Obj([])
    ensures e.priority.Some? <==> kind == "Fileupload"
    ensures kind == "Fileupload" && (priority.None? || !Truthy(priority.value)) ==> e.priority == Some(Str("normal"))
    ensures kind == "Fileupload" && priority.Some? && Truthy(priority.value) ==> e.priority == priority
  {
    Entry(kind, time, OrElse(details, Obj([])),
          if kind == "Fileupload" then Some(OrElse(priority, Str("normal"))) else None)
  }

  function Log(s: Session, kind: string, details: Option<Value>, priority: Option<Value>, time: string): (r: Outcome)
    ensures !s.recording ==> r == Outcome(s, NoReply, None)
    ensures s.recording ==>
      && r.session == s.(log := s.log + [MakeEntry(kind, details, priority, time)])
      && r.reply == Success
  {
    if !s.recording then Outcome(s, NoReply, None)
    else Outcome(Append(s, MakeEntry(kind, details, priority, time)), Success, None)
  }

  /** `getEventLog`: the stored log as XML. Storage is written through on
      every append and reset on every start, so it holds the session's log. */
  function EventLog(s: Session): (r: Outcome)
    ensures r.session == s && r.broadcast.None?
    ensures r.reply.XmlLog?
    ensures s.log == [] ==> r.reply.log == "<eventLog></eventLog>"
  {
    Outcome(s, XmlLog(BackgroundXml.ConvertEventLogToXml(EntryValues(s.log))), None)
  }

  // ---------------------------------------------------------------------------
  // Browser notifications (background.js:185-259)
  // ---------------------------------------------------------------------------

  function NavigationCompleted(s: Session, frameId: int, tab: Option<Tab>, time: string): (r: Session)
    ensures r == s.(log := r.log)
    ensures r != s ==> tab.Some? && r.log == s.log + [NavEntry(tab.value, time)]
    ensures r != s <==> s.recording && frameId == 0 && tab.Some? && tab.value.url != ""
  {
    if s.recording && frameId == 0 && tab.Some? && tab.value.url != ""
    then Append(s, NavEntry(tab.value, time))
    else s
  }

  /** A tab switch is logged exactly when the activated tab is not already
      the active one; the active tab follows. */
  function TabActivated(s: Session, tabId: int, tab: Option<Tab>, time: string): (r: Session)
    ensures r != s <==> s.recording && tab.Some? && tab.value.url != "" && s.activeTabId != Some(tabId)
    ensures r != s ==>
      && r.activeTabId == Some(tabId)
      && r.log == s.log + [Entry("tabswitch", time, Obj([Field("url", Str(tab.value.url))]), None)]
    ensures r.recording == s.recording && r.windowState == s.windowState
  {
    if s.recording && tab.Some? && tab.value.url != "" && s.activeTabId != Some(tabId) then
      Append(s.(activeTabId := Some(tabId)),
             Entry("tabswitch", time, Obj([Field("url", Str(tab.value.url))]), None))
    else s
  }

  /** A bounds change of the recorded window: a new state is logged as a state
      change; otherwise a window that is maximized (by state or by size) while
      the remembered state is something else is logged as maximized. */
  function BoundsChanged(s: Session, windowId: int, updated: Window, screenWidth: int, screenHeight: int, time: string): (r: Session)
    ensures !s.recording || s.windowId != Some(windowId) ==> r == s
    ensures s.recording && s.windowId == Some(windowId) && updated.state != s.windowState ==>
      && r.windowState == updated.state
      && r.log == s.log + [Entry("windowStateChange", time,
                                 Obj([Field("previousState", Str(s.windowState)), Field("currentState", Str(updated.state))]), None)]
    ensures s.recording && s.windowId == Some(windowId) && updated.state == s.windowState ==>
      (r != s <==> IsWindowMaximized(updated, screenWidth, screenHeight) && s.windowState != "maximized")
    ensures r != s ==> r.windowState != s.windowState && |r.log| == |s.log| + 1
    ensures r.log[..|s.log|] == s.log
  {
    if !s.recording || s.windowId != Some(windowId) then s
    else if updated.state != s.windowState then
      Append(s.(windowState := updated.state),
             Entry("windowStateChange", time,
                   Obj([Field("previousState", Str(s.windowState)), Field("currentState", Str(updated.state))]), None))
    else if IsWindowMaximized(updated, screenWidth, screenHeight) && s.windowState != "maximized" then
      Append(s.(windowState := "maximized"),
             Entry("windowMaximize", time, Obj([Field("state", Str("maximized-by-size"))]), None))
    else s
  }

  /** A download started while recording is logged with its file name and
      URL; nothing else changes. */
  function DownloadCreated(s: Session, filename: string, url: string, time: string): (r: Session)
    ensures r == s.(log := r.log)
    ensures |r.log| == |s.log| + (if s.recording then 1 else 0)
    ensures r.log[..|s.log|] == s.log
    ensures s.recording ==>
      && r.log[|s.log|].kind == "download" && r.log[|s.log|].time == time
      && r.log[|s.log|].details == Obj([Field("filename", Str(filename)), Field("url", Str(url))])
  {
    if !s.recording then s
    else Append(s, Entry("download", time, Obj([Field("filename", Str(filename)), Field("url", Str(url))]), None))
  }

  // ---------------------------------------------------------------------------
  // The machine
  // ---------------------------------------------------------------------------

  function Step(s: Session, input: Input): Outcome {
    match input
    case StartRecording(w, tabs, windowFirst, wt, tt) => Start(s, w, tabs, windowFirst, wt, tt)
    case StopRecording => Stop(s)
    case GetEventLog => EventLog(s)
    case LogEvent(kind, details, priority, time) => Log(s, kind, details, priority, time)
    case CheckRecordingState => Outcome(s, RecordingState(s.recording), None)
    case NavigationCompleted(frameId, tab, time) => Outcome(NavigationCompleted(s, frameId, tab, time), NoReply, None)
    case TabActivated(tabId, tab, time) => Outcome(TabActivated(s, tabId, tab, time), NoReply, None)
    case BoundsChanged(id, updated, sw, sh, time) => Outcome(BoundsChanged(s, id, updated, sw, sh, time), NoReply, None)
    case DownloadCreated(filename, url, time) => Outcome(DownloadCreated(s, filename, url, time), NoReply, None)
  }

  function Run(s: Session, inputs: seq<Input>): Session
    decreases |inputs|
  {
    if inputs == [] then s else Run(Step(s, inputs[0]).session, inputs[1..])
  }

  /** Only a start removes entries: every other transition keeps the log as a
      prefix and adds at most one entry. */
  lemma StepAppendOnly(s: Session, input: Input)
    requires !input.StartRecording?
    ensures |s.log| <= |Step(s, input).session.log| <= |s.log| + 1
    ensures Step(s, input).session.log[..|s.log|] == s.log
  {
  }

  /** While not recording, nothing but a start changes the log or turns
      recording on. */
  lemma IdleStepKeepsLog(s: Session, input: Input)
    requires !s.recording && !input.StartRecording?
    ensures Step(s, input).session.log == s.log
    ensures !Step(s, input).session.recording
  {
  }

  /** Across any inputs without a start, the log only grows at its end. */
  lemma {:induction false} RunAppendOnly(s: Session, inputs: seq<Input>)
    requires forall i :: 0 <= i < |inputs| ==> !inputs[i].StartRecording?
    ensures |s.log| <= |Run(s, inputs).log|
    ensures Run(s, inputs).log[..|s.log|] == s.log
    decreases |inputs|
  {
    if inputs != [] {
      var t := Step(s, inputs[0]).session;
      StepAppendOnly(s, inputs[0]);
      RunAppendOnly(t, inputs[1..]);
      assert Run(t, inputs[1..]).log[..|s.log|] == Run(t, inputs[1..]).log[..|t.log|][..|s.log|];
    }
  }

  /** Across any inputs without a start, a session that is not recording
      keeps its log exactly. */
  lemma {:induction false} IdleRunKeepsLog(s: Session, inputs: seq<Input>)
    requires !s.recording
    requires forall i :: 0 <= i < |inputs| ==> !inputs[i].StartRecording?
    ensures Run(s, inputs).log == s.log && !Run(s, inputs).recording
    decreases |inputs|
  {
    if inputs != [] {
      IdleStepKeepsLog(s, inputs[0]);
      IdleRunKeepsLog(Step(s, inputs[0]).session, inputs[1..]);
    }
  }

  /** A `logEvent` while recording adds exactly one entry, at the end, and
      while not recording adds none. */
  lemma LogEventAppendsOne(s: Session, kind: string, details: Option<Value>, priority: Option<Value>, time: string)
    ensures |Step(s, LogEvent(kind, details, priority, time)).session.log| == |s.log| + (if s.recording then 1 else 0)
    ensures s.recording ==> Step(s, LogEvent(kind, details, priority, time)).session.log[|s.log|].kind == kind
  {
  }

  /** Two starts in a row: the second is refused and changes nothing. */
  lemma SecondStartRefused(s: Session, a: Input, b: Input)
    requires a.StartRecording? && b.StartRecording?
    ensures Step(Step(s, a).session, b).reply == Failure("Already recording")
    ensures Step(Step(s, a).session, b).session == Step(s, a).session
  {
  }

  /** A stop followed by a start: the log of the finished recording is gone
      and the new one starts with this start's own entries. */
  lemma RestartClearsLog(s: Session, w: Window, tabs: seq<Tab>, windowFirst: bool, wt: string, tt: string)
    requires s.recording
    ensures var t := Step(Stop(s).session, StartRecording(w, tabs, windowFirst, wt, tt)).session;
      && t.recording
      && t.log == (if |tabs| == 0 then [WindowEntry(w, wt)]
                   else if windowFirst then [WindowEntry(w, wt), NavEntry(tabs[0], tt)]
                   else [NavEntry(tabs[0], tt), WindowEntry(w, wt)])
  {
  }

  /** Activating the tab that is already active logs nothing: a second
      activation of the same tab leaves the session as the first left it. */
  lemma TabActivatedTwiceLogsOnce(s: Session, tabId: int, tab: Option<Tab>, t1: string, t2: string)
    ensures var s1 := TabActivated(s, tabId, tab, t1);
      && TabActivated(s1, tabId, tab, t2) == s1
      && |s1.log| <= |s.log| + 1
  {
  }

  /** Reading the log twice without anything in between gives the same XML. */
  lemma EventLogRepeatable(s: Session)
    ensures Step(Step(s, GetEventLog).session, GetEventLog) == Step(s, GetEventLog)
  {
  }

  /** A window made screen-sized while remembered as "normal" is logged as a
      maximize; the next bounds change reporting its real state "normal" is
      then logged as a change back from "maximized". */
  lemma MaximizedBySizeThenNormal(s: Session, id: int, w: Window, sw: int, sh: int, t1: string, t2: string)
    requires s.recording && s.windowId == Some(id) && s.windowState == "normal"
    requires w.state == "normal" && w.width >= sw && w.height >= sh
    ensures var s1 := BoundsChanged(s, id, w, sw, sh, t1);
      && s1.windowState == "maximized"
      && s1.log[|s.log|].kind == "windowMaximize"
      && var s2 := BoundsChanged(s1, id, w, sw, sh, t2);
         s2.log[|s1.log|].details == Obj([Field("previousState", Str("maximized")), Field("currentState", Str("normal"))])
  {
  }

  /** What a logged event does to the exported document: its XML goes just
      before the closing tag, after every earlier entry's unchanged XML. */
  lemma LoggedEntryInXml(s: Session, kind: string, details: Option<Value>, priority: Option<Value>, time: string)
    requires s.recording
    ensures EventLog(Log(s, kind, details, priority, time).session).reply.log
      == "<eventLog>" + Serializer.EntriesXml(EntryValues(s.log), "")
         + BackgroundXml.ToXml(EntryValue(MakeEntry(kind, details, priority, time)), "event") + "</eventLog>"
  {
    var e := MakeEntry(kind, details, priority, time);
    assert EntryValues(s.log + [e]) == EntryValues(s.log) + [EntryValue(e)];
    BackgroundXml.AppendEntryXml(EntryValues(s.log), EntryValue(e));
  }
}
