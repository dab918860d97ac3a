/** The content script as one machine: a signal is one DOM event or message
    with the data its listeners read, `Step` runs every listener registered
    for it in registration order, and `Run` feeds a trace of signals. */
module CaptureTrace {
  import opened Values
  import opened Locator
  import opened Capture

  datatype Signal =
    | RecordingState(on: bool, url: string, title: string)
    | InitialState(answer: Option<bool>, reloaded: bool, url: string, title: string)
    | Attach(c: Control)
    | Input(c: Control)
    | Blur(c: Control)
    | KeyDown(c: Control, key: string)
    | Click(t: DomNode, text: string, offset: Point, page: Point)
    | ContextMenu(t: DomNode)
    | DragStart(t: DomNode, page: Point)
    | DragOver
    | Drop(t: DomNode, page: Point)
    | DragEnd(page: Point)
    | MouseDown(t: DomNode, button: int, page: Point, clientY: int, now: int)
    | MouseMove(page: Point, clientY: int, now: int)
    | MouseUp(hit: DomNode, page: Point)
    | MouseLeave
    | Scroll(scrollX: int, scrollY: int, now: int)
    | Resize(width: int, height: int)

  function Step(s: State, sig: Signal): Output {
    match sig
    case RecordingState(on, url, title) => OnRecordingState(s, on, url, title)
    case InitialState(answer, reloaded, url, title) => OnInitialState(s, answer, reloaded, url, title)
    case Attach(c) => OnAttach(s, c)
    case Input(c) => OnInput(s, c)
    case Blur(c) => OnBlur(s, c)
    case KeyDown(c, key) => OnKeyDown(s, c, key)
    case Click(t, text, offset, page) => OnClick(s, t, text, offset, page)
    case ContextMenu(t) => OnContextMenu(s, t)
    case DragStart(t, page) => OnDragStart(s, t, page)
    case DragOver => OnDragOver(s)
    case Drop(t, page) => OnDrop(s, t, page)
    case DragEnd(page) => OnDragEnd(s, page)
    case MouseDown(t, button, page, clientY, now) => OnMouseDown(s, t, button, page, clientY, now)
    case MouseMove(page, clientY, now) => OnMouseMove(s, page, clientY, now)
    case MouseUp(hit, page) => OnMouseUp(s, hit, page)
    case MouseLeave => OnMouseLeave(s)
    case Scroll(x, y, now) => OnScroll(s, x, y, now)
    case Resize(w, h) => OnResize(s, w, h)
  }

  /** The final record and every message sent, in order. */
  function Run(s: State, trace: seq<Signal>): Output
    decreases |trace|
  {
    if trace == [] then Output(s, [])
    else
      var first := Step(s, trace[0]);
      var rest := Run(first.state, trace[1..]);
      Output(rest.state, first.sent + rest.sent)
  }

  // ---------------------------------------------------------------------------
  // The recording gate
  // ---------------------------------------------------------------------------

  /** A signal that can turn recording on. */
  predicate Arms(sig: Signal) {
    sig.RecordingState? || sig.InitialState?
  }

  /** While not recording, no listener sends anything, and the only records
      that change are the tracked value of a field where Enter was pressed
      and the flag and value of a field the attach scan reaches. */
  lemma IdleStepSendsNothing(s: State, sig: Signal)
    requires !s.recording && !Arms(sig)
    ensures Step(s, sig).sent == []
    ensures !Step(s, sig).state.recording
    ensures !sig.KeyDown? && !sig.Attach? ==> Step(s, sig).state == s
  {
    if sig.MouseMove? {
      assert ManualDragMove(s, sig.page) == Output(s, []);
    } else if sig.MouseUp? {
      assert ManualDragUp(s, sig.hit, sig.page) == Output(s, []);
    }
  }

  /** A trace with no recording-state signal, started while not recording,
      sends nothing. */
  lemma {:induction false} IdleRunSendsNothing(s: State, trace: seq<Signal>)
    requires !s.recording
    requires forall i :: 0 <= i < |trace| ==> !Arms(trace[i])
    ensures Run(s, trace).sent == []
    ensures !Run(s, trace).state.recording
    decreases |trace|
  {
    if trace != [] {
      IdleStepSendsNothing(s, trace[0]);
      IdleRunSendsNothing(Step(s, trace[0]).state, trace[1..]);
    }
  }

  // ---------------------------------------------------------------------------
  // Each gesture is logged at most once
  // ---------------------------------------------------------------------------

  /** A pending native drag: one drop or cancelled dragend may still come. */
  function NativeBudget(s: State): nat {
    if s.draggedElement.Some? then 1 else 0
  }

  function NativeEnds(ms: seq<Message>): nat {
    CountKind(ms, DropEvent) + CountKind(ms, DragEndEvent)
  }

  lemma NativeStep(s: State, sig: Signal)
    requires !sig.DragStart?
    ensures NativeEnds(Step(s, sig).sent) + NativeBudget(Step(s, sig).state) <= NativeBudget(s)
  {
    if sig.Drop? {
      NativeDrop(s, sig.t, sig.page);
    } else if sig.DragEnd? {
      NativeDragEnd(s, sig.page);
    } else {
      NativeOther(s, sig);
    }
  }

  lemma NativeOther(s: State, sig: Signal)
    requires !sig.DragStart? && !sig.Drop? && !sig.DragEnd?
    ensures NativeEnds(Step(s, sig).sent) == 0 && NativeBudget(Step(s, sig).state) == NativeBudget(s)
  {
    StepKinds(s, sig);
    NoNativeEnds(Step(s, sig).sent, sig);
    StepKeepsNativeDrag(s, sig);
  }

  /** Messages whose kinds all belong to a non-drag signal hold no drop or
      dragend. */
  lemma NoNativeEnds(ms: seq<Message>, sig: Signal)
    requires !sig.DragStart? && !sig.Drop? && !sig.DragEnd?
    requires forall i :: 0 <= i < |ms| ==> ms[i].kind in Kinds(sig)
    ensures NativeEnds(ms) == 0
  {
    NoKind(ms, DropEvent);
    NoKind(ms, DragEndEvent);
  }

  lemma NativeDrop(s: State, t: DomNode, page: Point)
    ensures NativeEnds(OnDrop(s, t, page).sent) + NativeBudget(OnDrop(s, t, page).state) <= NativeBudget(s)
  {
    var d := OnDrop(s, t, page);
    if d.sent != [] {
      assert d.sent[1..] == [];
      assert CountKind(d.sent[1..], DropEvent) == 0 && CountKind(d.sent[1..], DragEndEvent) == 0;
      assert CountKind(d.sent, DropEvent) == 1 && CountKind(d.sent, DragEndEvent) == 0;
    }
  }

  lemma NativeDragEnd(s: State, page: Point)
    ensures NativeEnds(OnDragEnd(s, page).sent) + NativeBudget(OnDragEnd(s, page).state) <= NativeBudget(s)
  {
    var d := OnDragEnd(s, page);
    if d.sent != [] {
      assert d.sent[1..] == [];
      assert CountKind(d.sent[1..], DropEvent) == 0 && CountKind(d.sent[1..], DragEndEvent) == 0;
      assert CountKind(d.sent, DropEvent) == 0 && CountKind(d.sent, DragEndEvent) == 1;
    }
  }

  lemma {:induction false} NoKind(ms: seq<Message>, kind: EventType)
    requires forall i :: 0 <= i < |ms| ==> ms[i].kind != kind
    ensures CountKind(ms, kind) == 0
  {
    if ms != [] {
      NoKind(ms[1..], kind);
    }
  }

  /** The kinds of message each signal can produce. */
  function Kinds(sig: Signal): set<EventType> {
    match sig
    case RecordingState(_, _, _) => {NavigationEvent}
    case InitialState(_, _, _, _) => {PageLoadEvent, RefreshEvent}
    case Blur(_) => {InputEvent}
    case KeyDown(_, _) => {InputEvent}
    case Click(_, _, _, _) => {ClickEvent}
    case ContextMenu(_) => {RightClickEvent}
    case DragStart(_, _) => {DragStartEvent}
    case Drop(_, _) => {DropEvent}
    case DragEnd(_) => {DragEndEvent}
    case MouseMove(_, _, _) => {ManualDragStartEvent, ScrollDragEvent}
    case MouseUp(_, _) => {ManualDropEvent}
    case Scroll(_, _, _) => {ScrollEvent}
    case Resize(_, _) => {MaximizeEvent, MinimizeEvent}
    case _ => {}
  }

  /** Signals handled by the form and page listeners. */
  predicate PageSignal(sig: Signal) {
    sig.RecordingState? || sig.InitialState? || sig.Input? || sig.Blur? || sig.KeyDown?
  }

  /** Signals handled by the click and native drag listeners. */
  predicate PointerSignal(sig: Signal) {
    sig.Click? || sig.ContextMenu? || sig.DragStart? || sig.DragOver? || sig.Drop? || sig.DragEnd?
  }

  /** Every message a step sends has one of its signal's kinds. */
  lemma StepKinds(s: State, sig: Signal)
    ensures forall i :: 0 <= i < |Step(s, sig).sent| ==> Step(s, sig).sent[i].kind in Kinds(sig)
  {
    if PageSignal(sig) {
      PageKinds(s, sig);
    } else if PointerSignal(sig) {
      PointerKinds(s, sig);
    } else if sig.MouseMove? {
      var a := ManualDragMove(s, sig.page);
      var b := ScrollDragMove(a.state, sig.clientY, sig.now);
      assert Step(s, sig).sent == a.sent + b.sent;
    } else {
      OtherKinds(s, sig);
    }
  }

  lemma PageKinds(s: State, sig: Signal)
    requires PageSignal(sig)
    ensures forall i :: 0 <= i < |Step(s, sig).sent| ==> Step(s, sig).sent[i].kind in Kinds(sig)
  {
  }

  lemma PointerKinds(s: State, sig: Signal)
    requires PointerSignal(sig)
    ensures forall i :: 0 <= i < |Step(s, sig).sent| ==> Step(s, sig).sent[i].kind in Kinds(sig)
  {
  }

  lemma OtherKinds(s: State, sig: Signal)
    requires !PageSignal(sig) && !PointerSignal(sig) && !sig.MouseMove?
    ensures forall i :: 0 <= i < |Step(s, sig).sent| ==> Step(s, sig).sent[i].kind in Kinds(sig)
  {
  }

  /** Only the drag listeners touch the pending native drag. */
  lemma StepKeepsNativeDrag(s: State, sig: Signal)
    requires !sig.DragStart? && !sig.Drop? && !sig.DragEnd?
    ensures Step(s, sig).state.draggedElement == s.draggedElement
  {
  }

  /** Without a new dragstart, at most one drop or cancelled dragend is
      logged, and none once the pending drag is consumed. */
  lemma {:induction false} NativeDropAtMostOnce(s: State, trace: seq<Signal>)
    requires forall i :: 0 <= i < |trace| ==> !trace[i].DragStart?
    ensures NativeEnds(Run(s, trace).sent) + NativeBudget(Run(s, trace).state) <= NativeBudget(s)
    ensures NativeEnds(Run(s, trace).sent) <= 1
    decreases |trace|
  {
    if trace != [] {
      var first := Step(s, trace[0]);
      var rest := Run(first.state, trace[1..]);
      NativeStep(s, trace[0]);
      NativeDropAtMostOnce(first.state, trace[1..]);
      CountKindAppend(first.sent, rest.sent, DropEvent);
      CountKindAppend(first.sent, rest.sent, DragEndEvent);
    }
  }

  /** An armed press that has not yet become a drag: one manualDragStart may
      still come. */
  function ManualBudget(s: State): nat {
    if s.dragStartElement.Some? && !s.isDragging then 1 else 0
  }

  lemma ManualStep(s: State, sig: Signal)
    requires !sig.MouseDown?
    ensures CountKind(Step(s, sig).sent, ManualDragStartEvent) + ManualBudget(Step(s, sig).state) <= ManualBudget(s)
  {
    if sig.MouseMove? {
      ManualMove(s, sig.page, sig.clientY, sig.now);
    } else if sig.MouseUp? {
      ManualUp(s, sig);
    } else {
      ManualOther(s, sig);
    }
  }

  lemma ManualMove(s: State, page: Point, clientY: int, now: int)
    ensures CountKind(OnMouseMove(s, page, clientY, now).sent, ManualDragStartEvent)
      + ManualBudget(OnMouseMove(s, page, clientY, now).state) <= ManualBudget(s)
  {
    var a := ManualDragMove(s, page);
    var b := ScrollDragMove(a.state, clientY, now);
    CountKindAppend(a.sent, b.sent, ManualDragStartEvent);
    NoKind(b.sent, ManualDragStartEvent);
  }

  lemma ManualUp(s: State, sig: Signal)
    requires sig.MouseUp?
    ensures CountKind(Step(s, sig).sent, ManualDragStartEvent) + ManualBudget(Step(s, sig).state) <= ManualBudget(s)
  {
    StepKinds(s, sig);
    NoKind(Step(s, sig).sent, ManualDragStartEvent);
  }

  lemma ManualOther(s: State, sig: Signal)
    requires !sig.MouseDown? && !sig.MouseMove? && !sig.MouseUp?
    ensures CountKind(Step(s, sig).sent, ManualDragStartEvent) + ManualBudget(Step(s, sig).state) <= ManualBudget(s)
  {
    StepKinds(s, sig);
    NoKind(Step(s, sig).sent, ManualDragStartEvent);
    StepKeepsManualDrag(s, sig);
  }

  /** Only the mouse listeners touch the manual-drag press. */
  lemma StepKeepsManualDrag(s: State, sig: Signal)
    requires !sig.MouseDown? && !sig.MouseMove? && !sig.MouseUp?
    ensures Step(s, sig).state.isDragging == s.isDragging
    ensures Step(s, sig).state.dragStartElement == s.dragStartElement
  {
    if PageSignal(sig) {
      PageKeepsManualDrag(s, sig);
    } else {
      OtherKeepsManualDrag(s, sig);
    }
  }

  lemma PageKeepsManualDrag(s: State, sig: Signal)
    requires PageSignal(sig)
    ensures Step(s, sig).state.isDragging == s.isDragging
    ensures Step(s, sig).state.dragStartElement == s.dragStartElement
  {
  }

  lemma OtherKeepsManualDrag(s: State, sig: Signal)
    requires !PageSignal(sig) && !sig.MouseDown? && !sig.MouseMove? && !sig.MouseUp?
    ensures Step(s, sig).state.isDragging == s.isDragging
    ensures Step(s, sig).state.dragStartElement == s.dragStartElement
  {
  }

  /** Without a new press, a manual drag is announced at most once. */
  lemma {:induction false} ManualDragStartAtMostOnce(s: State, trace: seq<Signal>)
    requires forall i :: 0 <= i < |trace| ==> !trace[i].MouseDown?
    ensures CountKind(Run(s, trace).sent, ManualDragStartEvent) + ManualBudget(Run(s, trace).state) <= ManualBudget(s)
    ensures CountKind(Run(s, trace).sent, ManualDragStartEvent) <= 1
    decreases |trace|
  {
    if trace != [] {
      var first := Step(s, trace[0]);
      var rest := Run(first.state, trace[1..]);
      ManualStep(s, trace[0]);
      ManualDragStartAtMostOnce(first.state, trace[1..]);
      CountKindAppend(first.sent, rest.sent, ManualDragStartEvent);
    }
  }

  /** A left press in progress: one scrollDrag may still come. */
  function ScrollDragBudget(s: State): nat {
    if s.scrollDragInProgress then 1 else 0
  }

  predicate LeftPress(sig: Signal) {
    sig.MouseDown? && sig.button == 0
  }

  lemma ScrollDragStep(s: State, sig: Signal)
    requires !LeftPress(sig)
    ensures CountKind(Step(s, sig).sent, ScrollDragEvent) + ScrollDragBudget(Step(s, sig).state) <= ScrollDragBudget(s)
  {
    if sig.MouseMove? {
      ScrollDragOnMove(s, sig.page, sig.clientY, sig.now);
    } else {
      ScrollDragOther(s, sig);
    }
  }

  lemma ScrollDragOnMove(s: State, page: Point, clientY: int, now: int)
    ensures CountKind(OnMouseMove(s, page, clientY, now).sent, ScrollDragEvent)
      + ScrollDragBudget(OnMouseMove(s, page, clientY, now).state) <= ScrollDragBudget(s)
  {
    var a := ManualDragMove(s, page);
    var b := ScrollDragMove(a.state, clientY, now);
    CountKindAppend(a.sent, b.sent, ScrollDragEvent);
    NoKind(a.sent, ScrollDragEvent);
  }

  lemma ScrollDragOther(s: State, sig: Signal)
    requires !LeftPress(sig) && !sig.MouseMove?
    ensures CountKind(Step(s, sig).sent, ScrollDragEvent) + ScrollDragBudget(Step(s, sig).state) <= ScrollDragBudget(s)
  {
    StepKinds(s, sig);
    NoKind(Step(s, sig).sent, ScrollDragEvent);
    StepKeepsScrollDrag(s, sig);
  }

  /** Only a left press arms a scroll-drag. */
  lemma StepKeepsScrollDrag(s: State, sig: Signal)
    requires !LeftPress(sig) && !sig.MouseMove?
    ensures Step(s, sig).state.scrollDragInProgress ==> s.scrollDragInProgress
  {
  }

  /** Without a new left press, a scroll-drag is logged at most once. */
  lemma {:induction false} ScrollDragAtMostOnce(s: State, trace: seq<Signal>)
    requires forall i :: 0 <= i < |trace| ==> !LeftPress(trace[i])
    ensures CountKind(Run(s, trace).sent, ScrollDragEvent) + ScrollDragBudget(Run(s, trace).state) <= ScrollDragBudget(s)
    ensures CountKind(Run(s, trace).sent, ScrollDragEvent) <= 1
    decreases |trace|
  {
    if trace != [] {
      var first := Step(s, trace[0]);
      var rest := Run(first.state, trace[1..]);
      ScrollDragStep(s, trace[0]);
      ScrollDragAtMostOnce(first.state, trace[1..]);
      CountKindAppend(first.sent, rest.sent, ScrollDragEvent);
    }
  }

  lemma RunPair(s: State, a: Signal, b: Signal)
    ensures Run(s, [a, b]).sent == Step(s, a).sent + Step(Step(s, a).state, b).sent
  {
    var t := [a, b];
    assert t[1..] == [b];
    assert [b][1..] == [];
    var s1 := Step(s, a).state;
    assert Run(s1, [b]).sent == Step(s1, b).sent + [];
  }

  // ---------------------------------------------------------------------------
  // Input tracking scenarios
  // ---------------------------------------------------------------------------

  /** Typing into a field that started empty and then leaving it logs
      nothing: every keystroke's `input` event already made the tracked value
      equal to the field's value. */
  lemma TypedThenBlurredNotLogged(s: State, c: Control)
    requires s.recording
    ensures Run(s, [Input(c), Blur(c)]).sent == []
  {
    var s1 := OnInput(s, c).state;
    assert Tracked(s1, c.node) == c.value;
    RunPair(s, Input(c), Blur(c));
  }

  /** A value confirmed with Enter is not logged again when the field then
      loses focus. */
  lemma EnterThenBlurLogsOnce(s: State, c: Control)
    requires s.recording && c.value != "" && !GetElementLocator(c.target).Throws?
    ensures |Run(s, [KeyDown(c, "Enter"), Blur(c)]).sent| == 1
  {
    var s1 := OnKeyDown(s, c, "Enter").state;
    assert Tracked(s1, c.node) == c.value;
    RunPair(s, KeyDown(c, "Enter"), Blur(c));
  }

  /** A field that was pre-filled when the attach scan reached it and is
      then left unchanged logs nothing on blur. */
  lemma AttachedUnchangedNotLogged(s: State, c: Control)
    requires c.node !in s.attached
    ensures Run(s, [Attach(c), Blur(c)]).sent == []
  {
    var s1 := OnAttach(s, c).state;
    assert Tracked(s1, c.node) == c.value;
    RunPair(s, Attach(c), Blur(c));
  }

  /** Once the scan has seeded a field, a changed value is logged on blur,
      once, with the new value. */
  lemma AttachedThenEditedLogs(s: State, c: Control, d: Control)
    requires c.node !in s.attached && d.node == c.node
    requires s.recording && d.value != "" && d.value != c.value && !GetElementLocator(d.target).Throws?
    ensures Run(s, [Attach(c), Blur(d)]).sent
      == [Message(InputEvent, InputDetails(d, AsOption(GetElementLocator(d.target)), false))]
  {
    var s1 := OnAttach(s, c).state;
    assert Tracked(s1, d.node) == c.value;
    RunPair(s, Attach(c), Blur(d));
  }

  /** The value of a password field never leaves the page: every input event
      from it carries the mask. */
  lemma PasswordMasked(s: State, sig: Signal)
    requires (sig.Blur? || sig.KeyDown?) && sig.c.inputType == "password"
    ensures forall i :: 0 <= i < |Step(s, sig).sent| ==>
      Lookup(Step(s, sig).sent[i].details, "value") == Some(Str(Mask))
  {
    var loc := GetElementLocator(sig.c.target);
    if !loc.Throws? {
      var enter := sig.KeyDown?;
      var fs := [Field("value", Str(Shown(sig.c))), Field("type", Str(sig.c.inputType))]
        + LocatorFields(AsOption(loc), "locatorType", "locatorExpression")
        + (if enter then [Field("enterKey", Bool(true))] else []);
      LookupFirst(fs, 0, "value");
      assert InputDetails(sig.c, AsOption(loc), enter) == Obj(fs);
    }
  }

  // ---------------------------------------------------------------------------
  // Scroll debouncing and resize scenarios
  // ---------------------------------------------------------------------------

  /** Scrolls that all come less than 100ms after the last accepted one are
      all dropped and change nothing. */
  lemma {:induction false} ScrollsDropped(s: State, trace: seq<Signal>)
    requires forall i :: 0 <= i < |trace| ==> trace[i].Scroll? && trace[i].now - s.lastScrollTime < ScrollDebounce
    ensures Run(s, trace) == Output(s, [])
    decreases |trace|
  {
    if trace != [] {
      assert Step(s, trace[0]) == Output(s, []);
      ScrollsDropped(s, trace[1..]);
    }
  }

  /** Any number of scrolls within one 100ms window log at most one event:
      the first accepted one moves the last scroll time into the window, and
      every later one is then less than 100ms after it. */
  lemma {:induction false} ScrollWindowLogsOnce(s: State, trace: seq<Signal>, t0: int)
    requires forall i :: 0 <= i < |trace| ==> trace[i].Scroll? && t0 <= trace[i].now < t0 + ScrollDebounce
    ensures |Run(s, trace).sent| <= 1
    decreases |trace|
  {
    if trace != [] {
      var first := Step(s, trace[0]);
      if first.sent == [] {
        assert first.state == s;
        ScrollWindowLogsOnce(s, trace[1..], t0);
      } else {
        assert first.state.lastScrollTime == trace[0].now;
        ScrollsDropped(first.state, trace[1..]);
      }
    }
  }

  /** Growing the window in both dimensions and then restoring its previous
      size logs a maximize and then a minimize, and leaves the remembered
      size where it started. */
  lemma ResizeBackAfterMaximize(s: State, width: int, height: int)
    requires s.recording && width > s.lastWindowWidth && height > s.lastWindowHeight
    ensures var out := Run(s, [Resize(width, height), Resize(s.lastWindowWidth, s.lastWindowHeight)]);
      && |out.sent| == 2 && out.sent[0].kind == MaximizeEvent && out.sent[1].kind == MinimizeEvent
      && out.state == s
  {
    var t := [Resize(width, height), Resize(s.lastWindowWidth, s.lastWindowHeight)];
    var s1 := OnResize(s, width, height).state;
    assert t[1..] == [Resize(s.lastWindowWidth, s.lastWindowHeight)];
    assert Run(s1, t[1..]) == Output(OnResize(s1, s.lastWindowWidth, s.lastWindowHeight).state,
                                     OnResize(s1, s.lastWindowWidth, s.lastWindowHeight).sent + []);
  }
}
