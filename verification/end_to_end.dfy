/** How the three scripts meet: a content-script message becomes a session
    entry, and the session's XML answer becomes the popup's exported file. */
module EndToEnd {
  import opened Values
  import Capture
  import Session
  import BackgroundXml
  import Popup

  /** A content-script message that reaches a recording session is logged as
      one entry carrying its kind and its details unchanged, after every
      earlier entry. */
  lemma MessageLogged(s: Session.Session, m: Capture.Message, time: string)
    requires s.recording && m.details.Obj? && m.kind.Name() != "Fileupload"
    ensures Session.Log(s, m.kind.Name(), Some(m.details), None, time).session.log
      == s.log + [Session.Entry(m.kind.Name(), time, m.details, None)]
  {
  }

  /** Exporting the background page's answer saves exactly the background
      page's document of the session's log, under the timestamped name. */
  lemma ExportSavesSessionDocument(s: Session.Session, json: string, iso: string)
    ensures var answer := Session.EventLog(s).reply;
      Popup.Export(None, Some(Popup.Response(Some(Str("xml")), Some(Str(answer.log)))), json, iso)
        == Popup.Download(Popup.ExportFilename(iso),
                          BackgroundXml.ConvertEventLogToXml(Session.EntryValues(s.log)))
  {
    var doc := BackgroundXml.ConvertEventLogToXml(Session.EntryValues(s.log));
    assert |doc| >= 21;
    assert doc != "";
  }
}
