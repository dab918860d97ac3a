/** The popup's pure parts (popup.js:26-64, 103-154): its own copy of the
    serializer, which writes a newline after every call's closing tag, the
    array-log document, the export file name, and the choice of what the view
    and export buttons do with the background page's answer. */
module Popup {
  import opened Values
  import opened XmlEscape
  import opened XmlTree
  import opened Serializer
  import BackgroundXml

  /** `convertObjectToXml(obj, rootName)`. */
  function ConvertObjectToXml(data: Value, rootName: string): string {
    Render(Tree(data, rootName), "\n")
  }

  /** The popup's serializer writes the background's document plus newlines:
      removing the newlines from both gives the same text. */
  lemma MirrorsBackground(data: Value, rootName: string)
    ensures StripNewlines(ConvertObjectToXml(data, rootName)) == StripNewlines(BackgroundXml.ToXml(data, rootName))
  {
    TrailerOnlyAddsNewlines(Tree(data, rootName));
  }

  const Declaration: string := "<?xml version=\"1.0\" encoding=\"UTF-8\"?>"
  const Header: string := Declaration + "\n" + "<eventLog>" + "\n"
  const Footer: string := "</eventLog>"

  /** `convertArrayLogToXml(arr)`: the declaration line, `<eventLog>` on its
      own line, one `event` call per entry in array order, `</eventLog>`. */
  function ConvertArrayLogToXml(arr: seq<Value>): (r: string)
    ensures |r| >= |Header| + |Footer|
    ensures r[..|Header|] == Header
    ensures r[|r| - |Footer|..] == Footer
  {
    var body := EntriesXml(arr, "\n");
    var r := Declaration + "\n" + "<eventLog>" + "\n" + body + "</eventLog>";
    assert r[..|Header|] == Header;
    assert r[|r| - |Footer|..] == Footer;
    r
  }

  lemma {:induction false} EntriesTrailer(log: seq<Value>)
    ensures StripNewlines(EntriesXml(log, "\n")) == StripNewlines(EntriesXml(log, ""))
  {
    if log != [] {
      var n := Tree(log[0], "event");
      StripNewlinesAppend(Render(n, "\n"), EntriesXml(log[1..], "\n"));
      StripNewlinesAppend(Render(n, ""), EntriesXml(log[1..], ""));
      TrailerOnlyAddsNewlines(n);
      EntriesTrailer(log[1..]);
    }
  }

  lemma {:induction false} StripFramed(decl: string, nl: string, open: string, p: string, close: string)
    requires StripNewlines(nl) == []
    ensures StripNewlines(decl + nl + open + nl + p + close)
      == ((StripNewlines(decl) + StripNewlines(open)) + StripNewlines(p)) + StripNewlines(close)
  {
    var a1 := decl + nl;
    var a2 := a1 + open;
    var a3 := a2 + nl;
    var d := StripNewlines(decl);
    var o := StripNewlines(open);
    StripNewlinesAppend(decl, nl);
    assert StripNewlines(a1) == d by { assert d + [] == d; }
    StripNewlinesAppend(a1, open);
    StripNewlinesAppend(a2, nl);
    assert StripNewlines(a3) == d + o by { assert (d + o) + [] == d + o; }
    StripNewlinesAppend(a3, p);
    StripNewlinesAppend(a3 + p, close);
  }

  lemma {:induction false} StripBare(open: string, b: string, close: string)
    ensures StripNewlines(open + b + close) == (StripNewlines(open) + StripNewlines(b)) + StripNewlines(close)
  {
    StripNewlinesAppend(open + b, close);
    StripNewlinesAppend(open, b);
  }

  /** The shape both documents share, with newlines removed. */
  lemma DocumentShape(decl: string, nl: string, open: string, p: string, b: string, close: string)
    requires StripNewlines(nl) == [] && StripNewlines(p) == StripNewlines(b)
    ensures StripNewlines(decl + nl + open + nl + p + close) == StripNewlines(decl) + StripNewlines(open + b + close)
  {
    StripFramed(decl, nl, open, p, close);
    StripBare(open, b, close);
    Assoc(StripNewlines(decl), StripNewlines(open), StripNewlines(b), StripNewlines(close));
  }

  lemma Assoc(d: string, o: string, m: string, c: string)
    ensures ((d + o) + m) + c == d + ((o + m) + c)
  {
  }

  /** Without its newlines, the popup's document for a log is the
      declaration followed by the background page's document for the same
      log. */
  lemma ArrayLogMirrorsBackground(arr: seq<Value>)
    ensures StripNewlines(ConvertArrayLogToXml(arr))
      == StripNewlines(Declaration) + StripNewlines(BackgroundXml.ConvertEventLogToXml(arr))
  {
    assert StripNewlines("\n") == [] by {
      assert "\n"[1..] == [];
    }
    EntriesTrailer(arr);
    DocumentShape(Declaration, "\n", "<eventLog>", EntriesXml(arr, "\n"), EntriesXml(arr, ""), "</eventLog>");
  }

  // ---------------------------------------------------------------------------
  // The export file name (popup.js:154)
  // ---------------------------------------------------------------------------

  /** `.replace(/[:.]/g, '-')`. */
  function DashColonsAndDots(s: string): (r: string)
    ensures |r| == |s|
    ensures forall i :: 0 <= i < |s| ==> r[i] == (if s[i] == ':' || s[i] == '.' then '-' else s[i])
  {
    if s == [] then [] else [if s[0] == ':' || s[0] == '.' then '-' else s[0]] + DashColonsAndDots(s[1..])
  }

  const FilePrefix: string := "steepgraph_events_"
  const FileSuffix: string := ".xml"

  /** The download's file name for a timestamp: the timestamp part has no
      ':' or '.', so the only dot left is the extension's. */
  function ExportFilename(iso: string): (r: string)
    ensures |r| == |FilePrefix| + |iso| + |FileSuffix|
    ensures r[..|FilePrefix|] == FilePrefix && r[|r| - |FileSuffix|..] == FileSuffix
    ensures forall i :: |FilePrefix| <= i < |r| - |FileSuffix| ==> r[i] != ':' && r[i] != '.'
    ensures forall i :: 0 <= i < |iso| ==>
      r[|FilePrefix| + i] == (if iso[i] == ':' || iso[i] == '.' then '-' else iso[i])
  {
    var stamp := DashColonsAndDots(iso);
    var r := FilePrefix + stamp + FileSuffix;
    assert forall i :: |FilePrefix| <= i < |r| - |FileSuffix| ==> r[i] == stamp[i - |FilePrefix|];
    r
  }

  /** Two timestamps that differ somewhere other than in a ':' or '.' give
      different file names. */
  lemma FilenameKeepsDigits(a: string, b: string, i: nat)
    requires |a| == |b| && i < |a| && a[i] != b[i]
    requires a[i] != ':' && a[i] != '.' && b[i] != ':' && b[i] != '.'
    ensures ExportFilename(a) != ExportFilename(b)
  {
    assert ExportFilename(a)[|FilePrefix| + i] == DashColonsAndDots(a)[i];
    assert ExportFilename(b)[|FilePrefix| + i] == DashColonsAndDots(b)[i];
  }

  // ---------------------------------------------------------------------------
  // Choosing what to show or save (popup.js:103-152)
  // ---------------------------------------------------------------------------

  /** The parts of the background page's answer the popup reads; `None` is
      an absent property. */
  datatype Response = Response(format: Option<Value>, log: Option<Value>)

  const EmptyLog: string := "<eventLog></eventLog>"

  /** The answer is taken as XML text: it says so, or its log is a string. */
  predicate IsXmlAnswer(r: Response) {
    r.format == Some(Str("xml")) || (r.log.Some? && r.log.value.Str?)
  }

  /** The document an answer yields without the fallback: its log as text
      (an empty or missing log gives the empty document), or an array log
      converted entry by entry. A non-string log is written as its string
      conversion. */
  function Document(r: Response): (d: Option<string>)
    ensures IsXmlAnswer(r) ==> d.Some?
    ensures IsXmlAnswer(r) && r.log.Some? && r.log.value.Str? && r.log.value.s != "" ==> d == Some(r.log.value.s)
    ensures IsXmlAnswer(r) && (r.log.None? || !Truthy(r.log.value)) ==> d == Some(EmptyLog)
    ensures IsXmlAnswer(r) && r.log.Some? && Truthy(r.log.value) ==> d == Some(ToJsString(r.log.value))
    ensures !IsXmlAnswer(r) ==> (d.Some? <==> r.log.Some? && r.log.value.Arr?)
    ensures !IsXmlAnswer(r) && r.log.Some? && r.log.value.Arr? ==> d == Some(ConvertArrayLogToXml(r.log.value.items))
  {
    if IsXmlAnswer(r) then
      Some(if r.log.Some? && Truthy(r.log.value) then ToJsString(r.log.value) else EmptyLog)
    else if r.log.Some? && r.log.value.Arr? then Some(ConvertArrayLogToXml(r.log.value.items))
    else None
  }

  /** The view button: the text put into the output box. `json` is what the
      JSON serializer makes of the log (or of the whole answer). */
  function View(lastError: Option<string>, response: Option<Response>, json: string): (text: string)
    ensures lastError.Some? ==> text == "Error: " + lastError.value
    ensures lastError.None? && response.None? ==> text == "<eventLog>No response from background</eventLog>"
    ensures lastError.None? && response.Some? && Document(response.value).Some? ==> text == Document(response.value).value
    ensures lastError.None? && response.Some? && Document(response.value).None? ==> text == json
  {
    if lastError.Some? then "Error: " + lastError.value
    else if response.None? then "<eventLog>No response from background</eventLog>"
    else
      match Document(response.value)
      case Some(d) => d
      case None => json
  }

  datatype ExportResult = Download(filename: string, data: string) | Alert(message: string)

  /** The `<raw>` document wrapping an unrecognised log. */
  function RawDocument(json: string): string {
    Header + "<raw>" + EscapeXml(json) + "</raw>\n" + Footer
  }

  /** The export button: the file to download, or the alert that ends the
      export. `json` is what the JSON serializer makes of the log, and `iso`
      the current time as an ISO string. */
  function Export(lastError: Option<string>, response: Option<Response>, json: string, iso: string): (r: ExportResult)
    ensures lastError.Some? ==> r == Alert("Error: " + lastError.value)
    ensures lastError.None? && response.None? ==> r == Alert("No response from background.")
    ensures r.Download? ==> r.filename == ExportFilename(iso)
    ensures lastError.None? && response.Some? ==>
      match Document(response.value)
      case Some(d) => r == Download(ExportFilename(iso), d)
      case None =>
        if response.value.log.Some? && Truthy(response.value.log.value)
        then r == Download(ExportFilename(iso), RawDocument(json))
        else r == Alert("No events to export.")
  {
    if lastError.Some? then Alert("Error: " + lastError.value)
    else if response.None? then Alert("No response from background.")
    else
      var resp := response.value;
      match Document(resp)
      case Some(d) => Download(ExportFilename(iso), d)
      case None =>
        if resp.log.Some? && Truthy(resp.log.value) then Download(ExportFilename(iso), RawDocument(json))
        else Alert("No events to export.")
  }

  /** The fallback document is well-formed around its payload: the payload
      adds no markup of its own. */
  lemma RawPayloadHasNoMarkup(json: string)
    ensures var p := EscapeXml(json);
      && RawDocument(json) == Header + "<raw>" + p + "</raw>\n" + Footer
      && forall i :: 0 <= i < |p| ==> p[i] != '<' && p[i] != '>'
  {
  }

  /** The view and export buttons agree: whenever export saves a document
      other than the fallback, it is the text the view button shows. */
  lemma ViewAndExportAgree(response: Response, json: string, iso: string)
    requires Document(response).Some?
    ensures Export(None, Some(response), json, iso) == Download(ExportFilename(iso), View(None, Some(response), json))
  {
  }
}
