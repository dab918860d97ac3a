/** The content script's capture logic (content.js): each DOM listener is a
    step function over one explicit record of the script's top-level
    variables. A step takes the signal's data (coordinates, times and values as
    integers and strings; the clock and hit-testing as inputs) and returns the
    new record and the messages the step hands to `logEvent`, which forwards a
    message only while `isRecording` holds. */
module Capture {
  import opened Values
  import opened Locator

  /** A node as it reaches a listener: always one that exists. */
  type DomNode = t: Target | WellFormed(t) witness Nothing

  datatype Point = Point(x: int, y: int)

  /** An input or textarea at the moment of a signal: a stable per-node key
      (the weak map's key), its place in the DOM, its value and its `type`. */
  datatype Control = Control(node: nat, target: DomNode, value: string, inputType: string)

  /** The event types the content script logs. */
  datatype EventType =
    | NavigationEvent | PageLoadEvent | RefreshEvent | InputEvent | ClickEvent | RightClickEvent
    | DragStartEvent | DropEvent | DragEndEvent | ManualDragStartEvent | ManualDropEvent
    | ScrollEvent | ScrollDragEvent | MaximizeEvent | MinimizeEvent
  {
    /** The `type` string sent with the event. */
    function Name(): string {
      match this
      case NavigationEvent => "navigation"
      case PageLoadEvent => "pageload"
      case RefreshEvent => "refresh"
      case InputEvent => "input"
      case ClickEvent => "click"
      case RightClickEvent => "rightclick"
      case DragStartEvent => "dragstart"
      case DropEvent => "drop"
      case DragEndEvent => "dragend"
      case ManualDragStartEvent => "manualDragStart"
      case ManualDropEvent => "manualDrop"
      case ScrollEvent => "scroll"
      case ScrollDragEvent => "scrollDrag"
      case MaximizeEvent => "windowMaximize"
      case MinimizeEvent => "windowMinimize"
    }
  }

  /** A `logEvent(type, details)` call that reached the background page. */
  datatype Message = Message(kind: EventType, details: Value)

  /** The script's top-level variables. `dragStartLocation` is one variable
      written by both the native drag and the manual drag listeners.
      `attached` is the set of fields whose `listenerAttached` flag is set. */
  datatype State = State(
    recording: bool,
    tracked: map<nat, string>,
    attached: set<nat>,
    draggedElement: Option<DomNode>,
    dragStartLocation: Option<Locator>,
    isDragging: bool,
    dragStartElement: Option<DomNode>,
    dragStartPos: Point,
    lastScrollY: int,
    lastScrollTime: int,
    scrollDragInProgress: bool,
    scrollDragStartY: int,
    scrollDragStartTime: int,
    lastWindowWidth: int,
    lastWindowHeight: int)

  datatype Output = Output(state: State, sent: seq<Message>)

  /** The variables as the script's load leaves them (content.js:1, 93,
      363-364, 442-444, 512-513, 531-532, 564-565). */
  function Initial(innerWidth: int, innerHeight: int): (s: State)
    ensures !s.recording && s.tracked == map[] && s.attached == {}
    ensures s.draggedElement.None? && s.dragStartElement.None? && !s.isDragging
    ensures !s.scrollDragInProgress
  {
    State(false, map[], {}, None, None, false, None, Point(0, 0), 0, 0, false, 0, 0,
          innerWidth, innerHeight)
  }

  // ---------------------------------------------------------------------------
  // Helpers shared by the listeners
  // ---------------------------------------------------------------------------

  /** `logEvent`'s own gate: nothing leaves while not recording. */
  function Send(recording: bool, m: Message): seq<Message> {
    if recording then [m] else []
  }

  function Abs(x: int): nat {
    if x < 0 then -x else x
  }

  /** The locator a non-throwing resolution produced (`null` as `None`). */
  function AsOption(r: LocResult): Option<Locator> {
    if r.Found? then Some(r.loc) else None
  }

  /** `xType: locator?.type, xExpression: locator?.expression`: both keys
      vanish (their value is `undefined`) when there is no locator. */
  function LocatorFields(loc: Option<Locator>, typeKey: string, exprKey: string): seq<Field> {
    match loc
    case None => []
    case Some(l) => [Field(typeKey, Str(l.kind.Name())), Field(exprKey, Str(l.expression))]
  }

  /** What `locator?.type` and `locator?.expression` put in a message: a
      key whose value is `undefined` is absent. */
  function TypeOf(loc: Option<Locator>): Option<Value> {
    if loc.Some? then Some(Str(loc.value.kind.Name())) else None
  }

  function ExpressionOf(loc: Option<Locator>): Option<Value> {
    if loc.Some? then Some(Str(loc.value.expression)) else None
  }

  /** `el.className` as a message carries it: the class attribute of an HTML
      element; an SVG element's `SVGAnimatedString` has no own properties and
      arrives as an empty object. */
  function ClassValue(e: Elem): Value {
    if e.svg then Obj([]) else Str(e.className)
  }

  /** `tagName`, `id` and `className` of a node under the given keys; a node
      that is not an element has none of them. */
  function ElementFields(t: DomNode, tagKey: string, idKey: string, classKey: string): seq<Field> {
    match ElementOf(t)
    case None => []
    case Some(e) => [Field(tagKey, Str(e.tag)), Field(idKey, Str(e.id)), Field(classKey, ClassValue(e))]
  }

  /** The value of a key in a details object. */
  function Lookup(details: Value, key: string): Option<Value> {
    if !details.Obj? then None else LookupField(details.fields, key)
  }

  function LookupField(fs: seq<Field>, key: string): Option<Value> {
    if fs == [] then None else if fs[0].key == key then Some(fs[0].val) else LookupField(fs[1..], key)
  }

  /** The first field under a key decides the lookup. */
  lemma {:induction false} LookupFirst(fs: seq<Field>, i: nat, key: string)
    requires i < |fs| && fs[i].key == key
    requires forall j :: 0 <= j < i ==> fs[j].key != key
    ensures LookupField(fs, key) == Some(fs[i].val)
  {
    if i > 0 {
      LookupFirst(fs[1..], i - 1, key);
    }
  }

  /** No field of `fs` is under `key`. */
  predicate Lacks(fs: seq<Field>, key: string) {
    forall i :: 0 <= i < |fs| ==> fs[i].key != key
  }

  lemma {:induction false} LookupAbsent(fs: seq<Field>, key: string)
    requires Lacks(fs, key)
    ensures LookupField(fs, key).None?
  {
    if fs != [] {
      LookupAbsent(fs[1..], key);
    }
  }

  /** Fields under other keys placed in front do not change a lookup. */
  lemma {:induction false} LookupSkip(front: seq<Field>, back: seq<Field>, key: string)
    requires Lacks(front, key)
    ensures LookupField(front + back, key) == LookupField(back, key)
  {
    if front == [] {
      assert front + back == back;
    } else {
      assert (front + back)[1..] == front[1..] + back;
      LookupSkip(front[1..], back, key);
    }
  }

  lemma LacksAppend(a: seq<Field>, b: seq<Field>, key: string)
    requires Lacks(a, key) && Lacks(b, key)
    ensures Lacks(a + b, key)
  {
    assert forall i :: |a| <= i < |a + b| ==> (a + b)[i] == b[i - |a|];
  }

  /** Wherever a locator's two fields sit among fields under other keys, its
      type and its expression are found under their keys, and both keys are
      absent when there is no locator. */
  lemma LocatorFieldsLookup(front: seq<Field>, loc: Option<Locator>, typeKey: string, exprKey: string, back: seq<Field>)
    requires typeKey != exprKey
    requires Lacks(front, typeKey) && Lacks(front, exprKey) && Lacks(back, typeKey) && Lacks(back, exprKey)
    ensures LookupField(front + LocatorFields(loc, typeKey, exprKey) + back, typeKey) == TypeOf(loc)
    ensures LookupField(front + LocatorFields(loc, typeKey, exprKey) + back, exprKey) == ExpressionOf(loc)
  {
    var mid := LocatorFields(loc, typeKey, exprKey);
    assert front + mid + back == front + (mid + back);
    LookupSkip(front, mid + back, typeKey);
    LookupSkip(front, mid + back, exprKey);
    if loc.None? {
      assert mid + back == back;
      LookupAbsent(back, typeKey);
      LookupAbsent(back, exprKey);
    } else {
      assert (mid + back)[0] == mid[0];
      assert (mid + back)[1..] == [mid[1]] + back;
    }
  }

  /** A drop message opens with the drag's locator fields and then the drop
      target's: each of the four is found with its locator's value. */
  lemma DropLocatorLookups(drag: Option<Locator>, drop: Option<Locator>, rest: seq<Field>)
    requires Lacks(rest, "dragLocatorType") && Lacks(rest, "dragLocatorExpression")
    requires Lacks(rest, "dropLocatorType") && Lacks(rest, "dropLocatorExpression")
    ensures var fs := LocatorFields(drag, "dragLocatorType", "dragLocatorExpression")
                      + LocatorFields(drop, "dropLocatorType", "dropLocatorExpression") + rest;
      && LookupField(fs, "dragLocatorType") == TypeOf(drag)
      && LookupField(fs, "dragLocatorExpression") == ExpressionOf(drag)
      && LookupField(fs, "dropLocatorType") == TypeOf(drop)
      && LookupField(fs, "dropLocatorExpression") == ExpressionOf(drop)
  {
    var a := LocatorFields(drag, "dragLocatorType", "dragLocatorExpression");
    var b := LocatorFields(drop, "dropLocatorType", "dropLocatorExpression");
    LacksAppend(b, rest, "dragLocatorType");
    LacksAppend(b, rest, "dragLocatorExpression");
    LocatorFieldsLookup([], drag, "dragLocatorType", "dragLocatorExpression", b + rest);
    assert [] + a + (b + rest) == a + b + rest;
    LocatorFieldsLookup(a, drop, "dropLocatorType", "dropLocatorExpression", rest);
  }

  /** An element's fields followed by fields without a key still lack it:
      the element's fields carry only their own three keys. */
  lemma ElementsLack(t: DomNode, tagKey: string, idKey: string, classKey: string, tail: seq<Field>, key: string)
    requires key != tagKey && key != idKey && key != classKey && Lacks(tail, key)
    ensures Lacks(ElementFields(t, tagKey, idKey, classKey) + tail, key)
  {
    LacksAppend(ElementFields(t, tagKey, idKey, classKey), tail, key);
  }

  /** The element part of a drop message lacks the four locator keys. */
  lemma DropRestLacks(dragged: DomNode, target: DomNode, tail: seq<Field>)
    requires Lacks(tail, "dragLocatorType") && Lacks(tail, "dragLocatorExpression")
    requires Lacks(tail, "dropLocatorType") && Lacks(tail, "dropLocatorExpression")
    ensures var rest := ElementFields(dragged, "draggedTagName", "draggedId", "draggedClassName")
                        + ElementFields(target, "dropTargetTagName", "dropTargetId", "dropTargetClassName") + tail;
      && Lacks(rest, "dragLocatorType") && Lacks(rest, "dragLocatorExpression")
      && Lacks(rest, "dropLocatorType") && Lacks(rest, "dropLocatorExpression")
  {
    var e1 := ElementFields(dragged, "draggedTagName", "draggedId", "draggedClassName");
    var e2 := ElementFields(target, "dropTargetTagName", "dropTargetId", "dropTargetClassName");
    assert e1 + e2 + tail == e1 + (e2 + tail);
    ElementsLack(target, "dropTargetTagName", "dropTargetId", "dropTargetClassName", tail, "dragLocatorType");
    ElementsLack(target, "dropTargetTagName", "dropTargetId", "dropTargetClassName", tail, "dragLocatorExpression");
    ElementsLack(target, "dropTargetTagName", "dropTargetId", "dropTargetClassName", tail, "dropLocatorType");
    ElementsLack(target, "dropTargetTagName", "dropTargetId", "dropTargetClassName", tail, "dropLocatorExpression");
    ElementsLack(dragged, "draggedTagName", "draggedId", "draggedClassName", e2 + tail, "dragLocatorType");
    ElementsLack(dragged, "draggedTagName", "draggedId", "draggedClassName", e2 + tail, "dragLocatorExpression");
    ElementsLack(dragged, "draggedTagName", "draggedId", "draggedClassName", e2 + tail, "dropLocatorType");
    ElementsLack(dragged, "draggedTagName", "draggedId", "draggedClassName", e2 + tail, "dropLocatorExpression");
  }

  /** The number of messages of one kind. */
  function CountKind(ms: seq<Message>, kind: EventType): nat {
    if ms == [] then 0 else (if ms[0].kind == kind then 1 else 0) + CountKind(ms[1..], kind)
  }

  lemma {:induction false} CountKindAppend(a: seq<Message>, b: seq<Message>, kind: EventType)
    ensures CountKind(a + b, kind) == CountKind(a, kind) + CountKind(b, kind)
  {
    if a == [] {
      assert a + b == b;
    } else {
      assert (a + b)[1..] == a[1..] + b;
      CountKindAppend(a[1..], b, kind);
    }
  }

  // ---------------------------------------------------------------------------
  // Recording state (content.js:4-25, 28-53)
  // ---------------------------------------------------------------------------

  /** The `updateRecordingState` push from the background page. Turning on
      logs a navigation event. Turning off then calls `clear()` on the
      WeakMap, which has no such method: the throw ends the listener, so the
      tracked values stay as they were. */
  function OnRecordingState(s: State, on: bool, url: string, title: string): (r: Output)
    ensures r.state == s.(recording := on)
    ensures r.state.tracked == s.tracked
    ensures |r.sent| <= 1
    ensures r.sent != [] <==> !s.recording && on
    ensures r.sent != [] ==> r.sent[0].kind == NavigationEvent
  {
    var sent := if !s.recording && on
      then [Message(NavigationEvent, Obj([Field("url", Str(url)), Field("title", Str(title))]))]
      else [];
    Output(s.(recording := on), sent)
  }

  /** The pull of the recording state when the script loads: an answer sets
      the flag and, when it says recording, logs `pageload`; a reloaded page
      then logs `refresh` if the flag is on. */
  function OnInitialState(s: State, answer: Option<bool>, reloaded: bool, url: string, title: string): (r: Output)
    ensures answer.Some? ==> r.state == s.(recording := answer.value)
    ensures answer.None? ==> r.state == s
    ensures |r.sent| <= 2
    ensures r.sent != [] ==> r.state.recording
    ensures CountKind(r.sent, PageLoadEvent) == (if answer == Some(true) then 1 else 0)
    ensures CountKind(r.sent, RefreshEvent) == (if reloaded && r.state.recording then 1 else 0)
    ensures forall i :: 0 <= i < |r.sent| ==> r.sent[i].kind == PageLoadEvent || r.sent[i].kind == RefreshEvent
    ensures |r.sent| == 2 ==> r.sent[0].kind == PageLoadEvent && r.sent[1].kind == RefreshEvent
  {
    var s1 := if answer.Some? then s.(recording := answer.value) else s;
    var page := Obj([Field("url", Str(url)), Field("title", Str(title))]);
    var first := if answer == Some(true) then [Message(PageLoadEvent, page)] else [];
    var second := if reloaded then Send(s1.recording, Message(RefreshEvent, page)) else [];
    CountKindAppend(first, second, PageLoadEvent);
    CountKindAppend(first, second, RefreshEvent);
    CountSingle(first, PageLoadEvent, RefreshEvent);
    CountSingle(second, RefreshEvent, PageLoadEvent);
    Output(s1, first + second)
  }

  // ---------------------------------------------------------------------------
  // Input tracking (content.js:109-155)
  // ---------------------------------------------------------------------------

  const Mask: string := "********"

  /** `inputLastValueMap.get(el) || ''`. */
  function Tracked(s: State, node: nat): string {
    if node in s.tracked then s.tracked[node] else ""
  }

  /** `attachListenersToNode` reaching a field (content.js:101-105): a field
      seen for the first time is flagged and its current value becomes its
      tracked value, so a pre-filled value left as it was is not logged; a
      flagged field is skipped. The scan itself does not look at the
      recording flag. */
  function OnAttach(s: State, c: Control): (r: Output)
    ensures r.sent == []
    ensures c.node in r.state.attached
    ensures Tracked(r.state, c.node) == (if c.node in s.attached then Tracked(s, c.node) else c.value)
    ensures forall n :: n != c.node ==> Tracked(r.state, n) == Tracked(s, n)
    ensures r.state.attached == s.attached + {c.node}
    ensures r.state.(tracked := s.tracked, attached := s.attached) == s
  {
    if c.node in s.attached then Output(s, [])
    else Output(s.(attached := s.attached + {c.node}, tracked := s.tracked[c.node := c.value]), [])
  }

  /** The value an input event carries: a password is always the mask. */
  function Shown(c: Control): (v: string)
    ensures c.inputType == "password" ==> v == Mask
    ensures c.inputType != "password" ==> v == c.value
  {
    if c.inputType == "password" then Mask else c.value
  }

  function InputDetails(c: Control, loc: Option<Locator>, enter: bool): Value {
    Obj([Field("value", Str(Shown(c))), Field("type", Str(c.inputType))]
        + LocatorFields(loc, "locatorType", "locatorExpression")
        + (if enter then [Field("enterKey", Bool(true))] else []))
  }

  /** The `input` listener: records the current value on every keystroke
      while recording, and logs nothing. */
  function OnInput(s: State, c: Control): (r: Output)
    ensures r.sent == []
    ensures s.recording ==> r.state == s.(tracked := s.tracked[c.node := c.value])
    ensures !s.recording ==> r.state == s
  {
    if !s.recording then Output(s, [])
    else Output(s.(tracked := s.tracked[c.node := c.value]), [])
  }

  /** The `blur` listener: logs the value when it is non-empty and differs
      from the tracked one, then resets the tracked value to "". A throw from
      the resolver ends the listener before either. */
  function OnBlur(s: State, c: Control): (r: Output)
    ensures !s.recording ==> r == Output(s, [])
    ensures c.value == "" || c.value == Tracked(s, c.node) ==> r == Output(s, [])
    ensures GetElementLocator(c.target).Throws? ==> r == Output(s, [])
    ensures s.recording && c.value != "" && c.value != Tracked(s, c.node) && !GetElementLocator(c.target).Throws? ==>
      && r.state == s.(tracked := s.tracked[c.node := ""])
      && r.sent == [Message(InputEvent, InputDetails(c, AsOption(GetElementLocator(c.target)), false))]
  {
    if !s.recording then Output(s, [])
    else if c.value != "" && c.value != Tracked(s, c.node) then
      var loc := GetElementLocator(c.target);
      if loc.Throws? then Output(s, [])
      else Output(s.(tracked := s.tracked[c.node := ""]),
                  Send(s.recording, Message(InputEvent, InputDetails(c, AsOption(loc), false))))
    else Output(s, [])
  }

  /** The `keydown` listener: Enter on a non-empty field logs the value at
      once with `enterKey: true` and records it as tracked. The listener does
      not look at the recording flag itself: only the send is gated, so the
      tracked value changes even when not recording. */
  function OnKeyDown(s: State, c: Control, key: string): (r: Output)
    ensures key != "Enter" || c.value == "" || GetElementLocator(c.target).Throws? ==> r == Output(s, [])
    ensures key == "Enter" && c.value != "" && !GetElementLocator(c.target).Throws? ==>
      && r.state == s.(tracked := s.tracked[c.node := c.value])
      && r.sent == Send(s.recording, Message(InputEvent, InputDetails(c, AsOption(GetElementLocator(c.target)), true)))
  {
    if key == "Enter" && c.value != "" then
      var loc := GetElementLocator(c.target);
      if loc.Throws? then Output(s, [])
      else Output(s.(tracked := s.tracked[c.node := c.value]),
                  Send(s.recording, Message(InputEvent, InputDetails(c, AsOption(loc), true))))
    else Output(s, [])
  }

  // ---------------------------------------------------------------------------
  // Click (content.js:332-349)
  // ---------------------------------------------------------------------------

  /** The first `n` characters of a string (`substring(0, n)`). */
  function Prefix(s: string, n: nat): (r: string)
    ensures |r| <= n && |r| <= |s|
  {
    if |s| <= n then s else s[..n]
  }

  /** The `click` listener: logs the target's tag, class, id and trimmed
      text (at most 50 characters), the offsets and the locator. */
  function OnClick(s: State, t: DomNode, text: string, offset: Point, page: Point): (r: Output)
    ensures r.state == s
    ensures |r.sent| <= 1
    ensures r.sent != [] <==> s.recording && !GetElementLocator(t).Throws?
    ensures r.sent != [] ==>
      && r.sent[0].kind == ClickEvent
      && Lookup(r.sent[0].details, "locatorType") == TypeOf(AsOption(GetElementLocator(t)))
      && Lookup(r.sent[0].details, "locatorExpression") == ExpressionOf(AsOption(GetElementLocator(t)))
      && Lookup(r.sent[0].details, "pageX") == Some(Num(page.x))
      && Lookup(r.sent[0].details, "pageY") == Some(Num(page.y))
  {
    if !s.recording then Output(s, [])
    else
      var loc := GetElementLocator(t);
      if loc.Throws? then Output(s, [])
      else
        var targetInfo := match ElementOf(t)
          case None => Obj([Field("textContent", Str(Prefix(Trim(text), 50)))])
          case Some(e) => Obj([Field("tagName", Str(e.tag)), Field("className", ClassValue(e)),
                               Field("id", Str(e.id)), Field("textContent", Str(Prefix(Trim(text), 50)))]);
        var front := [Field("target", targetInfo), Field("offsetX", Num(offset.x)), Field("offsetY", Num(offset.y)),
                      Field("pageX", Num(page.x)), Field("pageY", Num(page.y))];
        var details := front + LocatorFields(AsOption(loc), "locatorType", "locatorExpression");
        LocatorFieldsLookup(front, AsOption(loc), "locatorType", "locatorExpression", []);
        assert details == front + LocatorFields(AsOption(loc), "locatorType", "locatorExpression") + [];
        LookupFirst(details, 3, "pageX");
        LookupFirst(details, 4, "pageY");
        Output(s, [Message(ClickEvent, Obj(details))])
  }

  /** The `contextmenu` listener: logs the locator and the tag of the
      right-clicked element. */
  function OnContextMenu(s: State, t: DomNode): (r: Output)
    ensures r.state == s
    ensures r.sent != [] <==> s.recording && !GetElementLocator(t).Throws?
    ensures r.sent != [] ==>
      && r.sent == [r.sent[0]] && r.sent[0].kind == RightClickEvent
      && Lookup(r.sent[0].details, "locatorType") == TypeOf(AsOption(GetElementLocator(t)))
      && Lookup(r.sent[0].details, "locatorExpression") == ExpressionOf(AsOption(GetElementLocator(t)))
  {
    if !s.recording then Output(s, [])
    else
      var loc := GetElementLocator(t);
      if loc.Throws? then Output(s, [])
      else
        var tag := match ElementOf(t) case Some(e) => [Field("tagName", Str(e.tag))] case None => [];
        var front := LocatorFields(AsOption(loc), "locatorType", "locatorExpression");
        LocatorFieldsLookup([], AsOption(loc), "locatorType", "locatorExpression", tag);
        assert [] + front + tag == front + tag;
        Output(s, [Message(RightClickEvent, Obj(front + tag))])
  }

  // ---------------------------------------------------------------------------
  // Native drag and drop (content.js:363-439)
  // ---------------------------------------------------------------------------

  /** `dragstart`: remembers the dragged element, then resolves and remembers
      its locator and logs `dragstart`. The element is stored before the
      resolver runs, so a throw leaves it stored and logs nothing. */
  function OnDragStart(s: State, t: DomNode, page: Point): (r: Output)
    ensures !s.recording ==> r == Output(s, [])
    ensures s.recording ==> r.state.draggedElement == Some(t)
    ensures s.recording && !GetElementLocator(t).Throws? ==>
      && r.state == s.(draggedElement := Some(t), dragStartLocation := AsOption(GetElementLocator(t)))
      && |r.sent| == 1 && r.sent[0].kind == DragStartEvent
      && Lookup(r.sent[0].details, "locatorType") == TypeOf(AsOption(GetElementLocator(t)))
      && Lookup(r.sent[0].details, "locatorExpression") == ExpressionOf(AsOption(GetElementLocator(t)))
    ensures GetElementLocator(t).Throws? ==> r.sent == [] && r.state.dragStartLocation == s.dragStartLocation
    ensures s.recording && GetElementLocator(t).Throws? ==> r == Output(s.(draggedElement := Some(t)), [])
  {
    if !s.recording then Output(s, [])
    else
      var s1 := s.(draggedElement := Some(t));
      var loc := GetElementLocator(t);
      if loc.Throws? then Output(s1, [])
      else
        var tail := [Field("pageX", Num(page.x)), Field("pageY", Num(page.y))];
        var rest := ElementFields(t, "tagName", "id", "className") + tail;
        var details := LocatorFields(AsOption(loc), "locatorType", "locatorExpression") + rest;
        ElementsLack(t, "tagName", "id", "className", tail, "locatorType");
        ElementsLack(t, "tagName", "id", "className", tail, "locatorExpression");
        LocatorFieldsLookup([], AsOption(loc), "locatorType", "locatorExpression", rest);
        assert [] + LocatorFields(AsOption(loc), "locatorType", "locatorExpression") + rest == details;
        Output(s1.(dragStartLocation := AsOption(loc)), [Message(DragStartEvent, Obj(details))])
  }

  /** `dragover` only allows the drop (`preventDefault`): no record changes
      and nothing is logged. */
  function OnDragOver(s: State): Output {
    Output(s, [])
  }

  /** `drop`: with a pending dragstart, logs both locators and both elements,
      then clears the drag. */
  function OnDrop(s: State, t: DomNode, page: Point): (r: Output)
    ensures !s.recording || s.draggedElement.None? || GetElementLocator(t).Throws? ==> r == Output(s, [])
    ensures s.recording && s.draggedElement.Some? && !GetElementLocator(t).Throws? ==>
      && r.state == s.(draggedElement := None, dragStartLocation := None)
      && |r.sent| == 1 && r.sent[0].kind == DropEvent
      && Lookup(r.sent[0].details, "dragLocatorType") == TypeOf(s.dragStartLocation)
      && Lookup(r.sent[0].details, "dragLocatorExpression") == ExpressionOf(s.dragStartLocation)
      && Lookup(r.sent[0].details, "dropLocatorType") == TypeOf(AsOption(GetElementLocator(t)))
      && Lookup(r.sent[0].details, "dropLocatorExpression") == ExpressionOf(AsOption(GetElementLocator(t)))
  {
    if !s.recording || s.draggedElement.None? then Output(s, [])
    else
      var loc := GetElementLocator(t);
      if loc.Throws? then Output(s, [])
      else
        var tail := [Field("pageX", Num(page.x)), Field("pageY", Num(page.y))];
        var rest := ElementFields(s.draggedElement.value, "draggedTagName", "draggedId", "draggedClassName")
          + ElementFields(t, "dropTargetTagName", "dropTargetId", "dropTargetClassName") + tail;
        var details := LocatorFields(s.dragStartLocation, "dragLocatorType", "dragLocatorExpression")
          + LocatorFields(AsOption(loc), "dropLocatorType", "dropLocatorExpression") + rest;
        DropRestLacks(s.draggedElement.value, t, tail);
        DropLocatorLookups(s.dragStartLocation, AsOption(loc), rest);
        Output(s.(draggedElement := None, dragStartLocation := None), [Message(DropEvent, Obj(details))])
  }

  /** `dragend`: a drag that no drop consumed is logged as cancelled and
      cleared. */
  function OnDragEnd(s: State, page: Point): (r: Output)
    ensures !s.recording || s.draggedElement.None? ==> r == Output(s, [])
    ensures s.recording && s.draggedElement.Some? ==>
      && r.state == s.(draggedElement := None, dragStartLocation := None)
      && |r.sent| == 1 && r.sent[0].kind == DragEndEvent
      && Lookup(r.sent[0].details, "cancelled") == Some(Bool(true))
      && Lookup(r.sent[0].details, "locatorType") == TypeOf(s.dragStartLocation)
      && Lookup(r.sent[0].details, "locatorExpression") == ExpressionOf(s.dragStartLocation)
  {
    if !s.recording || s.draggedElement.None? then Output(s, [])
    else
      var elem := ElementFields(s.draggedElement.value, "tagName", "id", "className");
      var tail := [Field("pageX", Num(page.x)), Field("pageY", Num(page.y)), Field("cancelled", Bool(true))];
      var head := LocatorFields(s.dragStartLocation, "locatorType", "locatorExpression")
        + elem + [Field("pageX", Num(page.x)), Field("pageY", Num(page.y))];
      var details := head + [Field("cancelled", Bool(true))];
      ElementsLack(s.draggedElement.value, "tagName", "id", "className", tail, "locatorType");
      ElementsLack(s.draggedElement.value, "tagName", "id", "className", tail, "locatorExpression");
      LocatorFieldsLookup([], s.dragStartLocation, "locatorType", "locatorExpression", elem + tail);
      assert [] + LocatorFields(s.dragStartLocation, "locatorType", "locatorExpression") + (elem + tail) == details;
      CancelledLookup(head);
      Output(s.(draggedElement := None, dragStartLocation := None), [Message(DragEndEvent, Obj(details))])
  }

  lemma {:induction false} CancelledLookup(head: seq<Field>)
    requires forall i :: 0 <= i < |head| ==> head[i].key != "cancelled"
    ensures LookupField(head + [Field("cancelled", Bool(true))], "cancelled") == Some(Bool(true))
  {
    if head != [] {
      assert (head + [Field("cancelled", Bool(true))])[1..] == head[1..] + [Field("cancelled", Bool(true))];
      CancelledLookup(head[1..]);
    }
  }

  // ---------------------------------------------------------------------------
  // Mouse: manual drag (content.js:442-509) and scroll-drag (content.js:531-560)
  // ---------------------------------------------------------------------------

  const DragThreshold: int := 10
  const ScrollDragMinDelta: int := 50
  const ScrollDragMinTime: int := 200

  /** Both `mousedown` listeners. The manual-drag one arms a new gesture on
      any button; the scroll-drag one only on the left button (0). */
  function OnMouseDown(s: State, t: DomNode, button: int, page: Point, clientY: int, now: int): (r: Output)
    ensures r.sent == []
    ensures !s.recording ==> r.state == s
    ensures s.recording ==>
      && !r.state.isDragging && r.state.dragStartElement == Some(t) && r.state.dragStartPos == page
      && r.state.scrollDragInProgress == (button == 0 || s.scrollDragInProgress)
      && (button == 0 ==> r.state.scrollDragStartY == clientY && r.state.scrollDragStartTime == now)
    ensures s.recording ==> r.state == s.(isDragging := false, dragStartElement := Some(t), dragStartPos := page,
      scrollDragInProgress := r.state.scrollDragInProgress, scrollDragStartY := r.state.scrollDragStartY,
      scrollDragStartTime := r.state.scrollDragStartTime)
    ensures button != 0 ==> r.state.scrollDragStartY == s.scrollDragStartY && r.state.scrollDragStartTime == s.scrollDragStartTime
    ensures r.state.draggedElement == s.draggedElement && r.state.tracked == s.tracked
  {
    if !s.recording then Output(s, [])
    else
      var s1 := s.(isDragging := false, dragStartElement := Some(t), dragStartPos := page);
      var s2 := if button == 0
        then s1.(scrollDragInProgress := true, scrollDragStartY := clientY, scrollDragStartTime := now)
        else s1;
      Output(s2, [])
  }

  /** The manual-drag `mousemove` listener. */
  function ManualDragMove(s: State, page: Point): (r: Output)
    ensures r.state == s.(isDragging := r.state.isDragging, dragStartLocation := r.state.dragStartLocation)
    ensures r.sent == [] ==> r.state.dragStartLocation == s.dragStartLocation
    ensures r.state.scrollDragInProgress == s.scrollDragInProgress
    ensures r.state.dragStartElement == s.dragStartElement && r.state.draggedElement == s.draggedElement
    ensures r.sent != [] ==> r.sent == [r.sent[0]] && r.sent[0].kind == ManualDragStartEvent
    ensures r.sent != [] ==>
      && s.dragStartElement.Some?
      && r.state.dragStartLocation == AsOption(GetElementLocator(s.dragStartElement.value))
      && Lookup(r.sent[0].details, "locatorType") == TypeOf(r.state.dragStartLocation)
      && Lookup(r.sent[0].details, "locatorExpression") == ExpressionOf(r.state.dragStartLocation)
    ensures r.sent != [] <==>
      && s.recording && s.dragStartElement.Some? && !s.isDragging
      && (Abs(page.x - s.dragStartPos.x) > DragThreshold || Abs(page.y - s.dragStartPos.y) > DragThreshold)
      && !GetElementLocator(s.dragStartElement.value).Throws?
    ensures r.state.isDragging == (s.isDragging || (s.recording && s.dragStartElement.Some?
      && (Abs(page.x - s.dragStartPos.x) > DragThreshold || Abs(page.y - s.dragStartPos.y) > DragThreshold)))
  {
    if !s.recording || s.dragStartElement.None? then Output(s, [])
    else
      var dx := Abs(page.x - s.dragStartPos.x);
      var dy := Abs(page.y - s.dragStartPos.y);
      if !s.isDragging && (dx > DragThreshold || dy > DragThreshold) then
        var s1 := s.(isDragging := true);
        var el := s.dragStartElement.value;
        var loc := GetElementLocator(el);
        if loc.Throws? then Output(s1, [])
        else
          var tail := [Field("startX", Num(s.dragStartPos.x)), Field("startY", Num(s.dragStartPos.y))];
          var rest := ElementFields(el, "tagName", "id", "className") + tail;
          var details := LocatorFields(AsOption(loc), "locatorType", "locatorExpression") + rest;
          ElementsLack(el, "tagName", "id", "className", tail, "locatorType");
          ElementsLack(el, "tagName", "id", "className", tail, "locatorExpression");
          LocatorFieldsLookup([], AsOption(loc), "locatorType", "locatorExpression", rest);
          assert [] + LocatorFields(AsOption(loc), "locatorType", "locatorExpression") + rest == details;
          Output(s1.(dragStartLocation := AsOption(loc)), [Message(ManualDragStartEvent, Obj(details))])
      else Output(s, [])
  }

  /** The scroll-drag `mousemove` listener: a press that has moved more than
      50px vertically after more than 200ms logs `scrollDrag` once. */
  function ScrollDragMove(s: State, clientY: int, now: int): (r: Output)
    ensures r.state == s.(scrollDragInProgress := r.state.scrollDragInProgress)
    ensures r.sent != [] <==>
      && s.recording && s.scrollDragInProgress
      && Abs(clientY - s.scrollDragStartY) > ScrollDragMinDelta && now - s.scrollDragStartTime > ScrollDragMinTime
    ensures r.sent != [] ==>
      && r.sent == [r.sent[0]] && r.sent[0].kind == ScrollDragEvent && !r.state.scrollDragInProgress
      && Lookup(r.sent[0].details, "direction") == Some(Str(if clientY - s.scrollDragStartY > 0 then "down" else "up"))
    ensures r.sent == [] ==> r.state == s
  {
    if !s.recording || !s.scrollDragInProgress then Output(s, [])
    else
      var deltaY := clientY - s.scrollDragStartY;
      var deltaTime := now - s.scrollDragStartTime;
      if Abs(deltaY) > ScrollDragMinDelta && deltaTime > ScrollDragMinTime then
        var details := [Field("direction", Str(if deltaY > 0 then "down" else "up")),
                        Field("deltaY", Num(deltaY)), Field("deltaTime", Num(deltaTime)),
                        Field("endY", Num(clientY))];
        LookupFirst(details, 0, "direction");
        Output(s.(scrollDragInProgress := false), [Message(ScrollDragEvent, Obj(details))])
      else Output(s, [])
  }

  /** Both `mousemove` listeners, manual drag first. The two read and write
      disjoint variables, so each decides as if it ran alone. */
  function OnMouseMove(s: State, page: Point, clientY: int, now: int): (r: Output)
    ensures !s.recording ==> r == Output(s, [])
    ensures |r.sent| <= 2
    ensures forall i :: 0 <= i < |r.sent| ==>
      r.sent[i].kind == ManualDragStartEvent || r.sent[i].kind == ScrollDragEvent
    ensures CountKind(r.sent, ManualDragStartEvent) == |ManualDragMove(s, page).sent|
    ensures CountKind(r.sent, ScrollDragEvent) == |ScrollDragMove(s, clientY, now).sent|
    ensures |r.sent| == 2 ==> r.sent[0].kind == ManualDragStartEvent && r.sent[1].kind == ScrollDragEvent
    ensures r.sent == ManualDragMove(s, page).sent + ScrollDragMove(s, clientY, now).sent
    ensures r.state == ManualDragMove(s, page).state.(scrollDragInProgress := ScrollDragMove(s, clientY, now).state.scrollDragInProgress)
    ensures r.state.isDragging == ManualDragMove(s, page).state.isDragging
    ensures r.state.scrollDragInProgress == ScrollDragMove(s, clientY, now).state.scrollDragInProgress
  {
    var a := ManualDragMove(s, page);
    var b := ScrollDragMove(a.state, clientY, now);
    ScrollDragIgnoresManual(s, a, page, b, clientY, now);
    CountKindAppend(a.sent, b.sent, ManualDragStartEvent);
    CountKindAppend(a.sent, b.sent, ScrollDragEvent);
    CountSingle(a.sent, ManualDragStartEvent, ScrollDragEvent);
    CountSingle(b.sent, ScrollDragEvent, ManualDragStartEvent);
    Output(b.state, a.sent + b.sent)
  }

  /** The scroll-drag listener reads nothing the manual-drag listener
      writes. */
  lemma ScrollDragIgnoresManual(s: State, a: Output, page: Point, b: Output, clientY: int, now: int)
    requires a == ManualDragMove(s, page) && b == ScrollDragMove(a.state, clientY, now)
    ensures b.sent == ScrollDragMove(s, clientY, now).sent
    ensures b.state.scrollDragInProgress == ScrollDragMove(s, clientY, now).state.scrollDragInProgress
    ensures b.state.isDragging == a.state.isDragging
    ensures b.state == a.state.(scrollDragInProgress := ScrollDragMove(s, clientY, now).state.scrollDragInProgress)
  {
    assert a.state.recording == s.recording && a.state.scrollDragStartY == s.scrollDragStartY
      && a.state.scrollDragStartTime == s.scrollDragStartTime;
  }

  /** In a list of at most one message of one kind, that kind is counted once
      per message and another kind not at all. */
  lemma CountSingle(ms: seq<Message>, kind: EventType, other: EventType)
    requires |ms| <= 1 && kind != other
    requires ms != [] ==> ms[0].kind == kind
    ensures CountKind(ms, kind) == |ms| && CountKind(ms, other) == 0
  {
    if ms != [] {
      assert ms[1..] == [];
    }
  }

  /** The manual-drag `mouseup` listener. `hit` is what `elementFromPoint`
      returned at the release point. With a drag in progress it logs
      `manualDrop`; then it always clears the press. Reading the tag of a
      missing hit, or a throw from the resolver, ends the listener before the
      clearing. */
  function ManualDragUp(s: State, hit: DomNode, page: Point): (r: Output)
    ensures r.state == s.(isDragging := r.state.isDragging, dragStartElement := r.state.dragStartElement)
    ensures r.state.scrollDragInProgress == s.scrollDragInProgress
    ensures r.state.draggedElement == s.draggedElement
    ensures r.sent != [] ==> r.sent == [r.sent[0]] && r.sent[0].kind == ManualDropEvent
    ensures r.sent != [] ==>
      && Lookup(r.sent[0].details, "dragLocatorType") == TypeOf(s.dragStartLocation)
      && Lookup(r.sent[0].details, "dragLocatorExpression") == ExpressionOf(s.dragStartLocation)
      && Lookup(r.sent[0].details, "dropLocatorType") == TypeOf(AsOption(GetElementLocator(hit)))
      && Lookup(r.sent[0].details, "dropLocatorExpression") == ExpressionOf(AsOption(GetElementLocator(hit)))
    ensures r.sent != [] <==>
      && s.recording && s.dragStartElement.Some? && s.isDragging
      && !hit.Nothing? && !GetElementLocator(hit).Throws?
    ensures s.recording && s.dragStartElement.Some? && (!s.isDragging || (!hit.Nothing? && !GetElementLocator(hit).Throws?)) ==>
      !r.state.isDragging && r.state.dragStartElement.None?
    ensures !s.recording || s.dragStartElement.None? ==> r == Output(s, [])
    ensures s.recording && s.isDragging && (hit.Nothing? || GetElementLocator(hit).Throws?) ==> r == Output(s, [])
  {
    if !s.recording || s.dragStartElement.None? then Output(s, [])
    else
      var cleared := s.(isDragging := false, dragStartElement := None);
      if !s.isDragging then Output(cleared, [])
      else if hit.Nothing? then Output(s, [])
      else
        var loc := GetElementLocator(hit);
        if loc.Throws? then Output(s, [])
        else Output(cleared, [ManualDropMessage(s.dragStartElement.value, s.dragStartLocation, hit, AsOption(loc), s.dragStartPos, page)])
  }

  /** The `manualDrop` message: the pressed element and its recorded locator,
      the release target and its locator, and both points. */
  function ManualDropMessage(dragged: DomNode, dragLoc: Option<Locator>, hit: DomNode, dropLoc: Option<Locator>,
                             start: Point, page: Point): (m: Message)
    ensures m.kind == ManualDropEvent
    ensures Lookup(m.details, "dragLocatorType") == TypeOf(dragLoc)
    ensures Lookup(m.details, "dragLocatorExpression") == ExpressionOf(dragLoc)
    ensures Lookup(m.details, "dropLocatorType") == TypeOf(dropLoc)
    ensures Lookup(m.details, "dropLocatorExpression") == ExpressionOf(dropLoc)
  {
    var tail := DropTail(start, page);
    var rest := ElementFields(dragged, "draggedTagName", "draggedId", "draggedClassName")
      + ElementFields(hit, "dropTargetTagName", "dropTargetId", "dropTargetClassName") + tail;
    var details := LocatorFields(dragLoc, "dragLocatorType", "dragLocatorExpression")
      + LocatorFields(dropLoc, "dropLocatorType", "dropLocatorExpression") + rest;
    DropRestLacks(dragged, hit, tail);
    DropLocatorLookups(dragLoc, dropLoc, rest);
    Message(ManualDropEvent, Obj(details))
  }

  /** The press and release points that close a `manualDrop` message. */
  function DropTail(start: Point, page: Point): (r: seq<Field>)
    ensures Lacks(r, "dragLocatorType") && Lacks(r, "dragLocatorExpression")
    ensures Lacks(r, "dropLocatorType") && Lacks(r, "dropLocatorExpression")
  {
    [Field("startX", Num(start.x)), Field("startY", Num(start.y)),
     Field("endX", Num(page.x)), Field("endY", Num(page.y))]
  }

  /** Both `mouseup` listeners: the manual drop, then the end of any
      scroll-drag press. */
  function OnMouseUp(s: State, hit: DomNode, page: Point): (r: Output)
    ensures s.recording ==> !r.state.scrollDragInProgress
    ensures |r.sent| <= 1
    ensures r.sent == ManualDragUp(s, hit, page).sent
    ensures r.state == (if s.recording then ManualDragUp(s, hit, page).state.(scrollDragInProgress := false) else s)
  {
    var a := ManualDragUp(s, hit, page);
    var st := if a.state.recording then a.state.(scrollDragInProgress := false) else a.state;
    Output(st, a.sent)
  }

  /** The `mouseleave` listener ends any scroll-drag press. */
  function OnMouseLeave(s: State): (r: Output)
    ensures r.sent == []
    ensures r.state == (if s.recording then s.(scrollDragInProgress := false) else s)
  {
    if s.recording then Output(s.(scrollDragInProgress := false), []) else Output(s, [])
  }

  // ---------------------------------------------------------------------------
  // Scroll (content.js:512-528) and resize (content.js:564-594)
  // ---------------------------------------------------------------------------

  const ScrollDebounce: int := 100

  /** The `scroll` listener: at most one event per 100ms; the direction is
      "down" exactly when the page moved further down than at the last
      accepted scroll. */
  function OnScroll(s: State, scrollX: int, scrollY: int, now: int): (r: Output)
    ensures !s.recording || now - s.lastScrollTime < ScrollDebounce ==> r == Output(s, [])
    ensures s.recording && now - s.lastScrollTime >= ScrollDebounce ==>
      && r.state == s.(lastScrollTime := now, lastScrollY := scrollY)
      && |r.sent| == 1 && r.sent[0].kind == ScrollEvent
      && Lookup(r.sent[0].details, "direction") == Some(Str(if scrollY > s.lastScrollY then "down" else "up"))
      && Lookup(r.sent[0].details, "scrollY") == Some(Num(scrollY))
  {
    if !s.recording || now - s.lastScrollTime < ScrollDebounce then Output(s, [])
    else
      var direction := if scrollY > s.lastScrollY then "down" else "up";
      var fields := [Field("scrollX", Num(scrollX)), Field("scrollY", Num(scrollY)),
                     Field("direction", Str(direction))];
      LookupFirst(fields, 1, "scrollY");
      LookupFirst(fields, 2, "direction");
      Output(s.(lastScrollTime := now, lastScrollY := scrollY), [Message(ScrollEvent, Obj(fields))])
  }

  /** The `resize` listener: both dimensions grown is a maximize, both shrunk a
      minimize, anything else nothing; the last size follows every resize
      seen while recording. */
  function OnResize(s: State, width: int, height: int): (r: Output)
    ensures !s.recording ==> r == Output(s, [])
    ensures s.recording ==> r.state == s.(lastWindowWidth := width, lastWindowHeight := height)
    ensures |r.sent| <= 1
    ensures (r.sent != [] && r.sent[0].kind == MaximizeEvent) <==>
      s.recording && width > s.lastWindowWidth && height > s.lastWindowHeight
    ensures (r.sent != [] && r.sent[0].kind == MinimizeEvent) <==>
      s.recording && width < s.lastWindowWidth && height < s.lastWindowHeight
    ensures r.sent != [] ==> r.sent[0].kind == MaximizeEvent || r.sent[0].kind == MinimizeEvent
  {
    if !s.recording then Output(s, [])
    else
      var details := Obj([Field("oldWidth", Num(s.lastWindowWidth)), Field("oldHeight", Num(s.lastWindowHeight)),
                          Field("newWidth", Num(width)), Field("newHeight", Num(height))]);
      var sent :=
        if width > s.lastWindowWidth && height > s.lastWindowHeight then [Message(MaximizeEvent, details)]
        else if width < s.lastWindowWidth && height < s.lastWindowHeight then [Message(MinimizeEvent, details)]
        else [];
      Output(s.(lastWindowWidth := width, lastWindowHeight := height), sent)
  }
}
