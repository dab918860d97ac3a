# Event recorder: a Dafny model

A browser extension records what a user does in a web page and exports it as
an XML document. It has three scripts:

- The content script (`content.js`) watches one page. Its DOM listeners turn
  inputs, clicks, drags, scrolls and resizes into `logEvent(type, details)`
  messages, and only while the page believes recording is on. Each element is
  named by a locator: its id, its name, a CSS class selector or a positional
  xpath under `/html/body`.
- The background page (`background.js`) owns the session. It holds the
  recording flag, the append-only event log, the active tab and the remembered
  window state. It answers start, stop, log and read requests, and adds its own
  entries for navigations, tab switches, window bounds changes and downloads.
  It serializes the log as `<eventLog>…</eventLog>`.
- The popup (`popup.js`) shows or downloads that document. It has its own copy
  of the serializer and its own array-log document. It chooses what to do with
  whatever answer it gets and names the file after the current time.

The model is a set of pure state machines over immutable records.

| module | file | what it holds |
|---|---|---|
| `Values` | `values.dfy` | The JSON-like details value, JavaScript truthiness, `||` defaults and number-to-text conversion. |
| `XmlEscape` | `xml_escape.dfy` | `escapeXml` and its inverse. |
| `XmlTree` | `xml_tree.dfy` | The element tree both serializers write, markup stripping and the popup's trailing newlines. |
| `Serializer` | `serializer.dfy` | What `toXml` builds from a value: sanitized tags, array items, `for…in` over strings. |
| `BackgroundXml` | `background_xml.dfy` | `toXml` and `convertEventLogToXml` as text. |
| `Locator` | `locator.dfy` | The DOM as seen by `getElementLocator`, the locator itself and an xpath resolver. |
| `Capture` | `capture.dfy` | One pure function per content-script listener over one explicit state record. |
| `CaptureTrace` | `capture_trace.dfy` | The content script as one machine over traces of DOM signals. |
| `Session` | `session.dfy` | The background page's transitions. |
| `Popup` | `popup.dfy` | The popup's serializer, documents, file name, view and export. |
| `EndToEnd` | `end_to_end.dfy` | The joins between the three scripts. |

Each step takes the browser's answers as parameters: hit-test results, the
clock as an integer, timestamps as opaque strings, screen size, the tab query
result and whether the page was reloaded. Each step returns the new state and
the messages sent or the reply given.

A locator resolution that throws is modelled as a value (`LocResult.Throws`).
This happens for an element outside the document body that reaches
`getXPath`, and for an SVG element that reaches the class step. Every listener that resolves a locator then stops at that point, as
the uncaught exception does. A field that the source sets to `undefined`
disappears when the message is passed, so the model omits it.

## Model

| member | source | states |
|---|---|---|
| Values.OrElse | background.js:161 | `a \|\| b`: a truthy value is kept; a missing or falsy one (empty string, 0, false, null) gives the default. |
| Values.ParseNatToString | background.js:25 | The decimal text of an array index reads back as that index, so index tags identify their item. |
| Values.NatToStringInjective | background.js:25 | Different array indices get different tags. |
| Values.ToJsString | background.js:10 | `String(v)` of a scalar: strings unchanged, numbers in decimal with a sign, booleans as "true" or "false", null as "null", an empty array as "". |
| XmlEscape.EscapeChar | background.js:11-18 | Exactly `< > & ' "` become entities of the form `&…;`; every other character stays itself; no replacement holds a markup character. |
| XmlEscape.EscapeXml | background.js:9-20 | The output holds none of `< > ' "`; text without the five characters is unchanged; text with one of them grows. |
| XmlEscape.UnescapeEscape | background.js:9-20 | Decoding the five entities recovers the original text exactly, so escaping loses nothing. |
| XmlEscape.EscapeAppend | background.js:10 | Escaping works character by character: escaping a concatenation is the concatenation of the escapes. |
| XmlTree.ContentRecoverable | background.js:23-43 | Removing the markup from a rendered well-tagged tree and unescaping the rest gives the tree's leaf texts in document order. |
| XmlTree.StripRender | background.js:23-43 | The character data of a rendered tree, followed by any text, is its escaped leaf text followed by that text's character data. |
| XmlTree.TrailerOnlyAddsNewlines | popup.js:53 | Writing a newline after every closing root tag changes the document only by newlines. |
| Serializer.SanitizeTag | background.js:28 | A sanitized key holds only `[A-Za-z0-9_]`, is no longer than the key, and a key already of that form is kept. A one-character key is kept iff it is a tag character and dropped otherwise. |
| Serializer.SanitizeTagAppend | background.js:28 | Sanitizing works character by character: a concatenation sanitizes to the concatenation of the parts. With the one-character case this makes the result exactly the key's tag characters in order. |
| Serializer.CharKids | background.js:25-37 | `for…in` over a string gives one element per character, tagged with its index and holding that one character. |
| Serializer.ItemTrees | background.js:30-33 | An array property gives exactly one element per item, in order, and the i-th element is the i-th item's own tree under the array's tag. |
| Serializer.TreeWellTagged | background.js:28 | Under a root made of tag characters, every tag `toXml` writes is made only of `[A-Za-z0-9_]`, possibly empty or starting with a digit. |
| Serializer.ContentPreserved | background.js:23-43 | None of the tree's leaf text is lost, reordered or altered: it is recovered from the document by stripping markup and unescaping. |
| Serializer.SanitizeDigits | background.js:28 | Index keys survive sanitizing unchanged. |
| Serializer.EntriesXmlAppend | background.js:47-49 | The entries' XML of two logs joined is the two XMLs joined: each entry is written on its own. |
| BackgroundXml.ScalarPropertyXml | background.js:36-38 | A scalar property becomes `<tag>escaped text</tag>` inside the root, with the sanitized key as tag. |
| BackgroundXml.ArrayPropertyXml | background.js:30-33 | An array property is written item by item, each item a whole call rooted at the array's sanitized key. |
| BackgroundXml.ObjectPropertyXml | background.js:34-35 | An object property is one nested call rooted at its sanitized key. |
| BackgroundXml.AtomItemXml | background.js:25-27 | A number, boolean or null array item enumerates nothing and gives an empty element. |
| BackgroundXml.StringItemXml | background.js:25-27 | A string array item is written character by character under the tags `0`, `1`, … |
| BackgroundXml.ConvertEventLogToXml | background.js:45-52 | The log document opens with `<eventLog>` and ends with `</eventLog>`; an empty log gives exactly `<eventLog></eventLog>`. |
| BackgroundXml.AppendEntryXml | background.js:47-49 | Appending an entry inserts only that entry's XML just before the closing tag; earlier entries' XML is untouched and stays in log order. |
| Locator.GetElementLocator | content.js:70-90 | First match wins. No element or no tag gives no locator. A non-empty id gives the id. Otherwise a non-empty name on a non-BUTTON gives the name. Otherwise an SVG element throws, because its `className` is an object without `trim`. Otherwise a non-empty class gives a CSS locator. Otherwise an element under the body gets its xpath, and one outside it throws. A throw comes only from an SVG element or one outside the body. |
| Locator.CssClasses | content.js:75-76 | The CSS expression is the lower-case tag, a dot and the classes joined by dots. Each class is non-empty and space-free, and together they hold exactly the attribute's non-space characters in order. |
| Locator.BlankClassGivesDanglingDot | content.js:75-76 | A class attribute of spaces only is truthy but splits into one empty piece, so the locator is the CSS expression `tag.` and not the xpath. |
| Locator.Steps | content.js:80-86 | One segment per level of the path, each with position at least 1. |
| Locator.XPath | content.js:78-89 | Every xpath starts with `/html/body`; the body itself is exactly `/html/body`. |
| Locator.XPathRoundTrip | content.js:78-89 | The positional segments lead back to exactly the element they were built for: the position counts same-tag earlier siblings, so it is unambiguous. |
| Locator.SplitWsPieces | content.js:75 | `split(/\s+/)` keeps every non-space character in order and no piece holds a space. |
| Locator.TrimNonSpace | content.js:75 | `trim()` removes only spaces. |
| Locator.Lower | content.js:75 | `toLowerCase()` maps each character and keeps the length. |
| Capture.OnRecordingState | content.js:31-46 | The flag follows the push. A navigation event is sent exactly when recording turns on. Turning off leaves the tracked values as they were, because the map's `clear()` throws. |
| Capture.OnInitialState | content.js:4-25 | An answer sets the flag and logs `pageload` exactly when it says recording. A reload logs one `refresh` exactly when the resulting flag is on, after any `pageload`; no other kind is sent. Without an answer the record does not change. Nothing is sent while the flag is off. |
| Capture.OnAttach | content.js:100-105 | The attach scan flags a field the first time it reaches it and makes the field's current value its tracked value. A field already flagged keeps its tracked value. No other field's tracked value and nothing else changes, and nothing is sent. |
| Capture.Shown | content.js:125 | A password's value is always the mask `********`; any other value is sent as typed. |
| Capture.OnInput | content.js:109-113 | Typing never logs. While recording the tracked value becomes the field's value; otherwise nothing changes. |
| Capture.OnBlur | content.js:116-133 | Logs only when recording, the value is non-empty and it differs from the tracked value (default ""). It then resets the tracked value to "". Otherwise nothing changes. |
| Capture.OnKeyDown | content.js:136-155 | Only Enter on a non-empty field acts: it records the value as tracked and sends the value with `enterKey: true`, gated by the flag. Any other key changes nothing. |
| Capture.OnClick | content.js:332-349 | A click sends one event exactly when recording and the locator resolves, and changes no state. The event carries the locator's type and expression under `locatorType` and `locatorExpression` (both absent without a locator) and the page coordinates. |
| Capture.OnContextMenu | content.js:352-360 | A right-click sends one `rightclick` event exactly when recording and the locator resolves. It carries the locator's type and expression, both absent without a locator. |
| Capture.LocatorFieldsLookup | content.js:346-347 | Wherever a locator's two fields sit among fields under other keys, the type and the expression are found under their keys, and both keys are absent when there is no locator. |
| Capture.OnDragStart | content.js:367-381 | While recording the dragged element is remembered, even when the resolver throws; a throw then changes nothing else and sends nothing. Otherwise its locator is remembered and one `dragstart` carrying that locator's type and expression is sent. Nothing happens when not recording. |
| Capture.OnDrop | content.js:390-415 | Without a pending drag, or when not recording, nothing happens. Otherwise one `drop` is sent and the pending drag and its locator are cleared. The event carries the remembered drag locator under `dragLocatorType` and `dragLocatorExpression` and the drop target's locator under `dropLocatorType` and `dropLocatorExpression`; each pair is absent when its locator is missing. |
| Capture.OnDragEnd | content.js:418-439 | A pending drag that no drop consumed sends one `dragend` with `cancelled: true` and the remembered drag locator, and is cleared. Otherwise nothing happens. |
| Capture.OnMouseDown | content.js:447-453 | Any button arms a manual drag at the press point and changes nothing else of the manual drag. Only the left button arms a scroll-drag and records its start (content.js:534-539); other buttons leave the scroll-drag record alone. Nothing is sent, and nothing changes when not recording. |
| Capture.ManualDragMove | content.js:455-477 | Only the dragging flag and the drag locator can change. `manualDragStart` is sent exactly when an armed, not-yet-dragging press has moved more than 10px on some axis; exactly 10 does not count. After that the press is dragging, even if the resolver threw. The event carries the pressed element's locator, which is remembered as the drag locator; without an event the drag locator is kept. |
| Capture.ScrollDragMove | content.js:541-554 | `scrollDrag` is sent exactly when an armed press has moved more than 50px vertically after more than 200ms. The direction is "down" iff it moved down. The press is then consumed; otherwise nothing changes. |
| Capture.OnMouseMove | content.js:455-554 | The two `mousemove` listeners (content.js:455-477 and 541-554) decide independently. The move sends exactly what the manual-drag listener alone sends, followed by what the scroll-drag listener alone sends. The new record is the manual-drag listener's record with the scroll-drag flag that listener alone would leave. Nothing happens when not recording. |
| Capture.ManualDragUp | content.js:479-509 | Only the dragging flag and the pressed element can change. `manualDrop` is sent exactly when a dragging press is released over an element whose locator resolves. The press is then cleared. A press that never dragged is cleared silently. A dragging press released over nothing, or over an element whose resolver throws, changes nothing. The event carries the remembered drag locator and the release target's locator, as a drop does. |
| Capture.ManualDropMessage | content.js:487-503 | The `manualDrop` details hold the drag locator's type and expression and the drop locator's type and expression, each absent when its locator is. |
| Capture.OnMouseUp | content.js:556-560 | A release sends exactly what the manual-drop listener (content.js:479-509) sends. While recording the record is that listener's, with the scroll-drag press ended; when not recording nothing changes. |
| Capture.OnMouseLeave | content.js:556-560 | Leaving the page while recording ends the scroll-drag press and changes nothing else. |
| Capture.OnScroll | content.js:514-528 | A scroll less than 100ms after the last accepted one is dropped and changes nothing. An accepted one sends one event and moves the last time and position. Its direction is "down" iff the page is further down than before (equal gives "up"). |
| Capture.OnResize | content.js:567-594 | `windowMaximize` is sent iff both dimensions grew, `windowMinimize` iff both shrank, and nothing otherwise. The last size follows every resize while recording and is untouched when not recording. |
| CaptureTrace.IdleStepSendsNothing | content.js:56-57 | While not recording no listener sends anything. Recording stays off. Only Enter and the attach scan may change the record. |
| CaptureTrace.IdleRunSendsNothing | content.js:56-57 | A whole trace without a recording-state signal, started while not recording, sends nothing. |
| CaptureTrace.NativeDropAtMostOnce | content.js:390-439 | Without a new dragstart, at most one `drop` or cancelled `dragend` is logged in any trace, and none once the pending drag is consumed. |
| CaptureTrace.ManualDragStartAtMostOnce | content.js:455-509 | Without a new press, `manualDragStart` is logged at most once in any trace. |
| CaptureTrace.ScrollDragAtMostOnce | content.js:534-560 | Without a new left press, `scrollDrag` is logged at most once in any trace. |
| CaptureTrace.StepKinds | content.js:331-594 | Every message a signal's listeners send has one of the kinds those listeners log. |
| CaptureTrace.TypedThenBlurredNotLogged | content.js:109-133 | Typing a value and then leaving the field logs nothing: the keystroke already made the tracked value equal to the field's value. |
| CaptureTrace.EnterThenBlurLogsOnce | content.js:136-152 | Enter and then leaving the field logs the value once, not twice. |
| CaptureTrace.AttachedUnchangedNotLogged | content.js:100-133 | A field that was pre-filled when the attach scan reached it and is left unchanged logs nothing on blur. |
| CaptureTrace.AttachedThenEditedLogs | content.js:100-133 | A seeded field whose value then changes logs exactly one `input` event with the new value on blur. |
| CaptureTrace.ScrollsDropped | content.js:514-528 | Scrolls that all come less than 100ms after the last accepted one are all dropped and change nothing. |
| CaptureTrace.ScrollWindowLogsOnce | content.js:514-528 | Any number of scrolls within one 100ms window log at most one `scroll` event. |
| CaptureTrace.ResizeBackAfterMaximize | content.js:567-594 | Growing the window in both dimensions and then restoring its size logs `windowMaximize` then `windowMinimize`, and leaves the record as it was. |
| CaptureTrace.PasswordMasked | content.js:125 | Every event a blur or Enter on a password field sends carries the mask as its value. |
| Session.Append | background.js:54-61 | The entry goes at the end; earlier entries and every other part of the session are unchanged. |
| Session.StepAppendOnly | background.js:54-61 | Every transition other than a start appends at most one entry and keeps the earlier ones. |
| Session.RunAppendOnly | background.js:54-61 | Across any sequence of requests and notifications without a start, the log only grows at its end. |
| Session.IsWindowMaximized | background.js:64-67 | A window is maximized when its state says so or when it is at least screen-sized in both dimensions, and only then. |
| Session.Start | background.js:73-123 | A start while recording is refused and changes nothing. Otherwise recording is on and the window is remembered. The log is exactly this start's window entry and, when there is an active tab, its navigation entry, in callback order. The reply is success iff there is an active tab. With no active tab recording still stays on. |
| Session.Stop | background.js:125-147 | A stop while idle is refused and changes nothing. Otherwise recording is off, the log is kept, and tabs are told to stop. |
| Session.MakeEntry | background.js:158-169 | The entry carries the type and time. Truthy details are kept, anything else gives `{}`. A priority is attached iff the type is "Fileupload", defaulting to "normal". |
| Session.Log | background.js:157-176 | A log request while recording appends exactly that entry and answers success; while idle it does nothing and gives no answer. |
| Session.LogEventAppendsOne | background.js:157-176 | A log request adds one entry iff recording, and the new last entry has the requested type. |
| Session.EventLog | background.js:149-155 | Reading the log changes nothing and answers XML; an empty log answers `<eventLog></eventLog>`. |
| Session.EventLogRepeatable | background.js:149-155 | Two reads with nothing in between answer the same document. |
| Session.NavigationCompleted | background.js:186-198 | A navigation is logged iff recording, the frame is the top one and the tab has a URL; nothing else changes. |
| Session.TabActivated | background.js:201-216 | A tab switch is logged iff recording, the tab has a URL and it is not already the active tab. The active tab follows. |
| Session.TabActivatedTwiceLogsOnce | background.js:201-216 | Activating the same tab twice logs at most once: the second activation changes nothing. |
| Session.BoundsChanged | background.js:219-244 | A changed window state is logged with the previous and current state. Otherwise a window maximized by state or by size, while remembered as something else, is logged as maximized. Every change moves the remembered state and adds exactly one entry. |
| Session.MaximizedBySizeThenNormal | background.js:219-244 | A screen-sized window remembered as "normal" is logged as maximized. The next report of its real state "normal" is then logged as a change back from "maximized". |
| Session.DownloadCreated | background.js:247-259 | A download while recording appends one `download` entry with the file name and URL after the unchanged earlier entries. While idle nothing changes. Nothing but the log changes. |
| Session.IdleStepKeepsLog | background.js:157 | While idle, no request or notification other than a start touches the log or turns recording on. |
| Session.IdleRunKeepsLog | background.js:157 | The same holds for any sequence of them. |
| Session.SecondStartRefused | background.js:74-77 | A second start right after a start is refused and changes nothing. |
| Session.RestartClearsLog | background.js:79-81 | A stop then a start throws away the finished recording: the new log is exactly the new start's window and navigation entries in callback order. |
| Session.LoggedEntryInXml | background.js:45-52 | A logged event's XML appears in the next read just before the closing tag, after every earlier entry's unchanged XML. |
| Popup.MirrorsBackground | popup.js:39-55 | The popup's serializer writes the background's document plus newlines: without newlines both are the same text. |
| Popup.ConvertArrayLogToXml | popup.js:57-64 | The array-log document starts with the XML declaration and `<eventLog>` on its own line, and ends with `</eventLog>`. |
| Popup.ArrayLogMirrorsBackground | popup.js:57-64 | Without newlines, the popup's array-log document is the declaration followed by the background page's document for the same log. |
| Popup.DashColonsAndDots | popup.js:154 | Every ':' and '.' becomes '-', and every other character and the length are kept. |
| Popup.ExportFilename | popup.js:154 | The file name is `steepgraph_events_`, the timestamp, and `.xml`. In the timestamp part each ':' or '.' became '-' and every other character is kept in place. |
| Popup.FilenameKeepsDigits | popup.js:154 | Timestamps that differ in a character other than ':' or '.' give different file names. |
| Popup.Document | popup.js:116-119 | An XML or string answer is used as its text: a string log as itself, any other truthy log as its `String` conversion, and an empty or missing log as `<eventLog></eventLog>`. Otherwise an array log gets the array-log document of its items, and anything else gets none. |
| Popup.View | popup.js:103-125 | The view shows the error, a no-response notice, the answer's document, or the JSON text when there is no document. |
| Popup.Export | popup.js:128-152 | An error or no response alerts. An answer with a document downloads it. Any other truthy log downloads the `<raw>` fallback. No log alerts "No events to export.". Every download is named by the timestamp. |
| Popup.RawPayloadHasNoMarkup | popup.js:145-148 | The fallback document's payload is escaped and adds no markup of its own. |
| Popup.ViewAndExportAgree | popup.js:116-144 | Whenever export saves a document other than the fallback, it is the text the view shows. |
| EndToEnd.MessageLogged | background.js:157-172 | A content-script message reaching a recording session becomes one entry with its kind and its details unchanged, after every earlier entry. |
| EndToEnd.ExportSavesSessionDocument | popup.js:141-142 | Exporting the background page's answer saves exactly the background's document of the session log, under the timestamped name. |

## Left out

- Chrome APIs are asynchronous. Each callback is modelled as running at once, so no other event can come between a request and its callback. A start takes the order of its two callbacks (`windows.getCurrent` and `tabs.query`) as a boolean parameter.
- Storage write-through (background.js:57-60 and 81) is not modelled. `getEventLog` reads the session's own log, which the writes mirror.
- The broadcast of `updateRecordingState` to every tab is modelled only as which flag is broadcast, not the per-tab sends or their errors.
- The `tabId` argument of `addEventToLog` (background.js:171, 233, 249) is not modelled because the function ignores it.
- Listener attachment is modelled only as the attach scan seeding a field's tracked value (content.js:100-105). The shadow-DOM traversal, the MutationObservers and the select and file-input listeners (content.js:156-260, 305-328) are not modelled. The input listeners are modelled as attached to every field.
- The script-load defect is not modelled. `attachListenersToNode` (content.js:100-316) never closes before content.js:316, so `attachAllInputListeners`, the file-input code and the priority-aware `logEvent` (content.js:174-315) are nested inside it. The top-level call at content.js:320, or the registration at content.js:322, then throws a ReferenceError that ends the script. As written, no listener from content.js:325 on is attached (observer, click through resize, iframe, load), and the input listeners are never attached either. The model describes every listener as attached.
- The last `load` listener (content.js:625-644) registers the `popstate` listener (content.js:634-642) inside itself; neither is modelled.
- The iframe listeners (content.js:597-622) are not modelled.
- `performance` reload detection (content.js:18) is an input.
- `elementFromPoint` (content.js:484) is an input.
- Capture.ManualDropMessage: the `distance` field (content.js:502) is a floating-point square root and is not in the modelled details.
- Capture.ManualDragUp: the release does not always clear the press. A missing hit (`dropTarget.tagName` on null) or a throwing resolver ends the listener first, and the model follows the code.
- Capture.OnDragOver: its `preventDefault` call is browser behaviour. The listener sends nothing and changes no state, so it has no contract of its own.
- `Date.now()` and `toISOString()` are not modelled: times are integers and ISO timestamps are opaque strings.
- Coordinates are integers, and `textContent?.trim()` works on the text the signal carries.
- `toLowerCase` is modelled for ASCII letters only.
- Strings are sequences of Unicode scalar values, not of UTF-16 code units. `substring(0, 50)` and `for…in` over a string count code units, so for text outside the Basic Multilingual Plane the model cuts and enumerates by character where the source splits surrogate pairs.
- Array items that are numbers, booleans or null enumerate nothing, so the serializer writes them as empty elements and their values are not in the document (as in the source). Serializer.ContentPreserved speaks of the tree's leaf text, which does not hold them.
- SVG elements are modelled only by their `className` being an object: it makes the resolver throw and is sent as an empty object.
- `JSON.stringify` (popup.js:122, 148) is an opaque string parameter.
- The popup UI is not modelled: buttons, `alert`, `showMessage`, Blob download and the start/stop and state-check calls (popup.js:10-24, 66-100, 155-179).
- Object key order is the order the fields are given in; JavaScript's integer-keys-first enumeration order is not modelled.
- Message kinds are an enumeration of the types the content script sends. Everything the background page logs is a string type.

Where the code and its documentation disagree, the model follows the code:

- Sanitized tags are made of `[A-Za-z0-9_]` but are not always XML names (background.js:25-28): a key with no tag character gives the empty tag `<>`, and array and string indices give digit-first tags such as `<0>`, so such data yields a document that is not well-formed XML.
- A start's `windowState` and `navigation` entries come in callback order, not a fixed order (background.js:84-121).
- A start with no active tab answers failure but recording stays on (background.js:79, 118-119).
- Stopping does not forget the tracked input values, because `WeakMap` has no `clear()` and the call throws (content.js:45).
- The `keydown` listener does not check the recording flag itself: Enter updates the tracked value even when idle, and only the send is gated (content.js:136-152).
- A resolver throw for an element outside the body, or for an SVG element without id or name, ends the listener, so that gesture logs nothing.
