/**
 * The request-body composer: four tabs (raw, form, binary, URL-encoded),
 * the raw sub-type combo box, and the two directions between what the
 * composer shows and a request: composing a request from the selection
 * (getBasicRequest) and restoring the composer from a snapshot (setState).
 */
module BodyTab {
  import opened Wrappers
  import opened MediaTypes
  import opened Requests

  /** The tabs of the body tab pane. */
  datatype Tab = Raw | Form | Binary | Url

  /** The message logged at info level when setState meets a null. */
  const BlankBodyMessage: string := "Dashboard loaded with blank request body."

  /**
   * What the composer shows: the selected tab (None when the tab pane has
   * no selection), the raw combo item and editor text with its mode, the
   * binary file path, the form editor's string and file rows, the URL
   * editor's rows, and the info messages logged so far.
   */
  datatype ComposerView = ComposerView(
    selected: Option<Tab>,
    rawLabel: string,
    rawText: string,
    mode: HighlightMode,
    filePath: string,
    formStrings: seq<Field>,
    formFiles: seq<Field>,
    urlFields: seq<Field>,
    infoLog: seq<string>)

  /**
   * getBasicRequest: the request the composer describes. Raw and binary
   * requests carry a scalar body, form requests string and file tuples,
   * URL-encoded requests string tuples; with no tab selected only the
   * request type is set.
   */
  function BasicRequest(v: ComposerView, requestType: string): (r: DataDispatchRequest)
    ensures r.requestType == requestType
    ensures WellShaped(r)
    ensures r.contentType.Some? <==> v.selected.Some?
    ensures v.selected == Some(Raw) ==>
      && r.contentType == Some(ContentTypeOfLabel(v.rawLabel))
      && r.body == Some(v.rawText)
    ensures v.selected == Some(Form) ==>
      && r.contentType == Some(MultipartFormData)
      && r.stringTuples == Some(TuplesOf(v.formStrings))
      && r.fileTuples == Some(TuplesOf(v.formFiles))
    ensures v.selected == Some(Binary) ==>
      && r.contentType == Some(ApplicationOctetStream)
      && r.body == Some(v.filePath)
    ensures v.selected == Some(Url) ==>
      && r.contentType == Some(ApplicationFormUrlencoded)
      && r.stringTuples == Some(TuplesOf(v.urlFields))
  {
    var request := DataDispatchRequest(requestType, None, None, None, None);
    match v.selected
    case None => request
    case Some(Raw) =>
      request.(contentType := Some(ContentTypeOfLabel(v.rawLabel)), body := Some(v.rawText))
    case Some(Form) =>
      request.(stringTuples := Some(TuplesOf(v.formStrings)),
               fileTuples := Some(TuplesOf(v.formFiles)),
               contentType := Some(MultipartFormData))
    case Some(Binary) =>
      request.(body := Some(v.filePath), contentType := Some(ApplicationOctetStream))
    case Some(Url) =>
      request.(stringTuples := Some(TuplesOf(v.urlFields)), contentType := Some(ApplicationFormUrlencoded))
  }

  /** The editor's mode is the one its combo item calls for. */
  predicate ModeAgrees(v: ComposerView) {
    v.mode == LabelMode(v.rawLabel)
  }

  /**
   * Selecting an item in the combo box: when the value changes, the
   * listener sets the editor's mode from the new item; selecting the item
   * already shown changes nothing.
   */
  function SelectLabel(v: ComposerView, item: string): (w: ComposerView)
    ensures w.rawLabel == item
    ensures item == v.rawLabel ==> w == v
    ensures item != v.rawLabel ==> w.mode == LabelMode(item)
    ensures ModeAgrees(v) ==> ModeAgrees(w)
    ensures w == v.(rawLabel := w.rawLabel, mode := w.mode)
  {
    if item != v.rawLabel then v.(rawLabel := item, mode := LabelMode(item)) else v
  }

  /**
   * setRawTab: put the body in the raw editor with the mode of the given
   * combo item, select that item, and select the raw tab.
   */
  function WithRawTab(v: ComposerView, item: string, body: string): (w: ComposerView)
    ensures w.selected == Some(Raw) && w.rawLabel == item && w.rawText == body
    ensures ModeAgrees(w)
    ensures w == v.(selected := w.selected, rawLabel := item, rawText := body, mode := w.mode)
  {
    SelectLabel(v.(rawText := body, mode := LabelMode(item)), item).(selected := Some(Raw))
  }

  /**
   * setRawTab as written: the mode comes from the media-type switch applied
   * to the combo item, which is Plain for every item.
   */
  function RawTabAsWritten(v: ComposerView, item: string, body: string): (w: ComposerView)
    ensures w.selected == Some(Raw) && w.rawLabel == item && w.rawText == body
    ensures item != v.rawLabel ==> w.mode == LabelMode(item)
    ensures item == v.rawLabel ==> w.mode == ModeOfMediaType(item)
    ensures w == v.(selected := w.selected, rawLabel := item, rawText := body, mode := w.mode)
  {
    SelectLabel(v.(rawText := body, mode := ModeOfMediaType(item)), item).(selected := Some(Raw))
  }

  /**
   * Restoring a JSON snapshot into a composer whose combo already shows
   * "JSON" leaves the editor in Plain mode: the combo value does not change,
   * so the listener never corrects the mode setRawTab chose.
   */
  lemma RawTabAsWrittenLosesMode(v: ComposerView, body: string)
    requires v.rawLabel == JsonLabel && ModeAgrees(v)
    ensures RawTabAsWritten(v, JsonLabel, body).mode == Plain
    ensures !ModeAgrees(RawTabAsWritten(v, JsonLabel, body))
    ensures ModeAgrees(WithRawTab(v, JsonLabel, body))
  {
    ModeOfLabelAsWrittenIsPlain(JsonLabel);
  }

  /** The composer after the blank-body info message is logged. */
  function Logged(v: ComposerView): (w: ComposerView)
    ensures w.infoLog == v.infoLog + [BlankBodyMessage]
    ensures w == v.(infoLog := w.infoLog)
  {
    v.(infoLog := v.infoLog + [BlankBodyMessage])
  }

  /** after is before with the entries of m appended, one row per entry, in some order. */
  predicate Appends(before: seq<Field>, after: seq<Field>, m: Tuples) {
    |before| <= |after| && after[..|before|] == before && IsEnumeration(after[|before|..], m)
  }

  /**
   * setState: the composer w may result from restoring state into v. A null
   * state or content type, or a null tuple map where one is read, ends the
   * restore with an info message, keeping whatever was already changed; a
   * content type outside the seven changes nothing.
   */
  predicate Restores(v: ComposerView, state: Option<DashboardState>, w: ComposerView) {
    match state
    case None => w == Logged(v)
    case Some(ds) =>
      match ds.contentType
      case None => w == Logged(v)
      case Some(ct) =>
        if IsRawMediaType(ct) then
          w == WithRawTab(v, RawLabelOf(ct).value, ds.body)
        else if ct == MultipartFormData then
          match ds.fileTuples
          case None => w == Logged(v)
          case Some(files) =>
            && Appends(v.formFiles, w.formFiles, files)
            && match ds.stringTuples
               case None => w == Logged(v.(formFiles := w.formFiles))
               case Some(strings) =>
                 && Appends(v.formStrings, w.formStrings, strings)
                 && w == v.(formFiles := w.formFiles, formStrings := w.formStrings, selected := Some(Form))
        else if ct == ApplicationOctetStream then
          w == v.(filePath := ds.body, selected := Some(Binary))
        else if ct == ApplicationFormUrlencoded then
          match ds.stringTuples
          case None => w == Logged(v)
          case Some(strings) =>
            && Appends(v.urlFields, w.urlFields, strings)
            && w == v.(urlFields := w.urlFields, selected := Some(Url))
        else
          w == v
  }

  /**
   * Raw round trip: restoring the content type composed from any of the
   * four combo items selects the raw tab, the same item, and the snapshot's
   * body.
   */
  lemma RawRoundTrip(item: string, v: ComposerView, ds: DashboardState, w: ComposerView)
    requires item in RawLabels
    requires ds.contentType == Some(ContentTypeOfLabel(item))
    requires Restores(v, Some(ds), w)
    ensures w.selected == Some(Raw) && w.rawLabel == item && w.rawText == ds.body
    ensures ModeAgrees(w)
  {
  }

  /** Restoring never clears a row that was already there, nor an earlier log entry. */
  lemma RestoreNeverClears(v: ComposerView, state: Option<DashboardState>, w: ComposerView)
    requires Restores(v, state, w)
    ensures |v.formStrings| <= |w.formStrings| && w.formStrings[..|v.formStrings|] == v.formStrings
    ensures |v.formFiles| <= |w.formFiles| && w.formFiles[..|v.formFiles|] == v.formFiles
    ensures |v.urlFields| <= |w.urlFields| && w.urlFields[..|v.urlFields|] == v.urlFields
    ensures |v.infoLog| <= |w.infoLog| && w.infoLog[..|v.infoLog|] == v.infoLog
  {
  }

  /** Every restore keeps the editor's mode in step with its combo item. */
  lemma RestoreKeepsModeAgreement(v: ComposerView, state: Option<DashboardState>, w: ComposerView)
    requires ModeAgrees(v)
    requires Restores(v, state, w)
    ensures ModeAgrees(w)
  {
  }

  /** A content type outside the seven leaves the composer as it was, log included. */
  lemma UnknownContentTypeIsIgnored(v: ComposerView, ds: DashboardState, w: ComposerView)
    requires ds.contentType.Some? && !IsKnownMediaType(ds.contentType.value)
    requires Restores(v, Some(ds), w)
    ensures w == v
  {
  }

  /** A null snapshot or content type only logs the blank-body message. */
  lemma NullStateOnlyLogs(v: ComposerView, state: Option<DashboardState>, w: ComposerView)
    requires state.None? || state.value.contentType.None?
    requires Restores(v, state, w)
    ensures w.infoLog == v.infoLog + [BlankBodyMessage]
    ensures w == v.(infoLog := w.infoLog)
  {
  }

  /**
   * A multipart snapshot with file tuples but null string tuples keeps the
   * file rows already appended, logs, and does not select the form tab.
   */
  lemma MultipartWithoutStringTuples(v: ComposerView, ds: DashboardState, w: ComposerView)
    requires ds.contentType == Some(MultipartFormData)
    requires ds.fileTuples.Some? && ds.stringTuples.None?
    requires Restores(v, Some(ds), w)
    ensures Appends(v.formFiles, w.formFiles, ds.fileTuples.value)
    ensures w.selected == v.selected && w.formStrings == v.formStrings
    ensures w.infoLog == v.infoLog + [BlankBodyMessage]
  {
  }

  /**
   * Restored tuples are added to the rows already in an editor: composing
   * afterwards gives the old tuples overridden by the restored ones.
   */
  lemma RestoredTuplesOverride(v: ComposerView, ds: DashboardState, w: ComposerView, requestType: string)
    requires ds.contentType.Some? && ds.contentType.value in {MultipartFormData, ApplicationFormUrlencoded}
    requires ds.stringTuples.Some? && (ds.contentType.value == MultipartFormData ==> ds.fileTuples.Some?)
    requires Restores(v, Some(ds), w)
    ensures var r := BasicRequest(w, requestType);
      && r.contentType == ds.contentType
      && (ds.contentType.value == MultipartFormData ==>
            && r.stringTuples == Some(TuplesOf(v.formStrings) + ds.stringTuples.value)
            && r.fileTuples == Some(TuplesOf(v.formFiles) + ds.fileTuples.value))
      && (ds.contentType.value == ApplicationFormUrlencoded ==>
            r.stringTuples == Some(TuplesOf(v.urlFields) + ds.stringTuples.value))
  {
    if ds.contentType.value == MultipartFormData {
      AppendedTuples(v.formStrings, w.formStrings, ds.stringTuples.value);
      AppendedTuples(v.formFiles, w.formFiles, ds.fileTuples.value);
    } else {
      AppendedTuples(v.urlFields, w.urlFields, ds.stringTuples.value);
    }
  }

  /** Rows holding just a map's entries stand for that map. */
  lemma AppendedOntoEmpty(after: seq<Field>, m: Tuples)
    requires Appends([], after, m)
    ensures TuplesOf(after) == m
  {
    assert after[0..] == after;
    TuplesOfEnumeration(after, m);
  }

  /** The tuples of rows with a map's entries appended. */
  lemma AppendedTuples(before: seq<Field>, after: seq<Field>, m: Tuples)
    requires Appends(before, after, m)
    ensures TuplesOf(after) == TuplesOf(before) + m
  {
    assert after == before + after[|before|..];
    TuplesOfAppend(before, after[|before|..]);
    TuplesOfEnumeration(after[|before|..], m);
  }

  /**
   * Compose, snapshot, restore, compose: restoring a snapshot that carries
   * a composed request into a composer with empty editors, then composing
   * again, gives back the same request, for every tab.
   */
  lemma ComposeRestoreCompose(v: ComposerView, requestType: string, ds: DashboardState, u: ComposerView, w: ComposerView)
    requires v.selected.Some?
    requires Carries(ds, BasicRequest(v, requestType))
    requires u.formStrings == [] && u.formFiles == [] && u.urlFields == []
    requires Restores(u, Some(ds), w)
    ensures BasicRequest(w, requestType) == BasicRequest(v, requestType)
  {
    match v.selected.value
    case Raw => RawComposeRestoreCompose(v, requestType, ds, u, w);
    case Form => FormComposeRestoreCompose(v, requestType, ds, u, w);
    case Binary =>
    case Url => UrlComposeRestoreCompose(v, requestType, ds, u, w);
  }

  /** The raw case of ComposeRestoreCompose: the content type restores the item it came from, or "PLAIN TEXT". */
  lemma RawComposeRestoreCompose(v: ComposerView, requestType: string, ds: DashboardState, u: ComposerView, w: ComposerView)
    requires v.selected == Some(Raw)
    requires Carries(ds, BasicRequest(v, requestType))
    requires Restores(u, Some(ds), w)
    ensures BasicRequest(w, requestType) == BasicRequest(v, requestType)
  {
    var ct := ContentTypeOfLabel(v.rawLabel);
    assert ds.contentType == Some(ct);
    RawLabelOfRoundTrip(ct);
    assert w == WithRawTab(u, RawLabelOf(ct).value, ds.body);
  }

  /** The form case of ComposeRestoreCompose: both tuple maps are rebuilt from the appended rows. */
  lemma FormComposeRestoreCompose(v: ComposerView, requestType: string, ds: DashboardState, u: ComposerView, w: ComposerView)
    requires v.selected == Some(Form)
    requires Carries(ds, BasicRequest(v, requestType))
    requires u.formStrings == [] && u.formFiles == []
    requires Restores(u, Some(ds), w)
    ensures BasicRequest(w, requestType) == BasicRequest(v, requestType)
  {
    var r := BasicRequest(v, requestType);
    assert ds.contentType == Some(MultipartFormData);
    assert ds.stringTuples == r.stringTuples && ds.fileTuples == r.fileTuples;
    RestoreFormRows(u, ds, w);
    AppendedOntoEmpty(w.formStrings, ds.stringTuples.value);
    AppendedOntoEmpty(w.formFiles, ds.fileTuples.value);
  }

  /** A complete multipart snapshot appends both kinds of rows and selects the form tab. */
  lemma RestoreFormRows(v: ComposerView, ds: DashboardState, w: ComposerView)
    requires ds.contentType == Some(MultipartFormData)
    requires ds.stringTuples.Some? && ds.fileTuples.Some?
    requires Restores(v, Some(ds), w)
    ensures w.selected == Some(Form)
    ensures Appends(v.formStrings, w.formStrings, ds.stringTuples.value)
    ensures Appends(v.formFiles, w.formFiles, ds.fileTuples.value)
  {
  }

  /** The URL-encoded case of ComposeRestoreCompose: the string tuples are rebuilt from the appended rows. */
  lemma UrlComposeRestoreCompose(v: ComposerView, requestType: string, ds: DashboardState, u: ComposerView, w: ComposerView)
    requires v.selected == Some(Url)
    requires Carries(ds, BasicRequest(v, requestType))
    requires u.urlFields == []
    requires Restores(u, Some(ds), w)
    ensures BasicRequest(w, requestType) == BasicRequest(v, requestType)
  {
    var r := BasicRequest(v, requestType);
    assert ds.contentType == Some(ApplicationFormUrlencoded);
    assert ds.stringTuples == r.stringTuples;
    assert Appends(u.urlFields, w.urlFields, ds.stringTuples.value) && w.selected == Some(Url);
    AppendedOntoEmpty(w.urlFields, ds.stringTuples.value);
  }

  /**
   * Restore, compose: restoring a snapshot with one of the seven content
   * types (and the tuple maps that content type reads) into a composer with
   * empty editors, then composing, gives a request the snapshot carries.
   */
  lemma RestoreComposeCarries(u: ComposerView, ds: DashboardState, w: ComposerView, requestType: string)
    requires ds.contentType.Some? && IsKnownMediaType(ds.contentType.value)
    requires ds.contentType.value in {MultipartFormData, ApplicationFormUrlencoded} ==> ds.stringTuples.Some?
    requires ds.contentType.value == MultipartFormData ==> ds.fileTuples.Some?
    requires u.formStrings == [] && u.formFiles == [] && u.urlFields == []
    requires Restores(u, Some(ds), w)
    ensures Carries(ds, BasicRequest(w, requestType))
  {
    var ct := ds.contentType.value;
    if IsRawMediaType(ct) {
      RawLabelOfRoundTrip(ct);
      assert w == WithRawTab(u, RawLabelOf(ct).value, ds.body);
    } else if ct == MultipartFormData {
      RestoreFormRows(u, ds, w);
      AppendedOntoEmpty(w.formStrings, ds.stringTuples.value);
      AppendedOntoEmpty(w.formFiles, ds.fileTuples.value);
    } else if ct == ApplicationFormUrlencoded {
      assert Appends(u.urlFields, w.urlFields, ds.stringTuples.value) && w.selected == Some(Url);
      AppendedOntoEmpty(w.urlFields, ds.stringTuples.value);
    }
  }

  /** The body tab controller: the composer's widgets as fields. */
  class BodyTabController {
    var selectedTab: Option<Tab>
    var rawLabel: string
    var rawText: string
    var mode: HighlightMode
    var filePath: string
    var formStringFields: seq<Field>
    var formFileFields: seq<Field>
    var urlFields: seq<Field>
    var infoLog: seq<string>

    /** What the composer currently shows. */
    function View(): ComposerView
      reads this
    {
      ComposerView(selectedTab, rawLabel, rawText, mode, filePath,
                   formStringFields, formFileFields, urlFields, infoLog)
    }

    /** The editor's mode follows the combo item. */
    predicate Valid()
      reads this
    {
      ModeAgrees(View())
    }

    /**
     * initialize: the combo box shows "PLAIN TEXT", the editors are empty,
     * and the tab pane shows the tab its layout lists first.
     */
    constructor (firstTab: Tab)
      ensures Valid()
      ensures View() == ComposerView(Some(firstTab), PlainTextLabel, "", Plain, "", [], [], [], [])
    {
      selectedTab := Some(firstTab);
      rawLabel := PlainTextLabel;
      rawText := "";
      mode := Plain;
      filePath := "";
      formStringFields := [];
      formFileFields := [];
      urlFields := [];
      infoLog := [];
    }

    /** The user picks an item in the raw combo box; the listener updates the mode. */
    method ChooseRawLabel(item: string)
      modifies this
      ensures View() == SelectLabel(old(View()), item)
    {
      if item != rawLabel {
        rawLabel := item;
        mode := LabelMode(item);
      }
    }

    /** setState: restore the composer from a snapshot. */
    method SetState(state: Option<DashboardState>)
      requires Valid()
      modifies this
      ensures Valid()
      ensures Restores(old(View()), state, View())
    {
      if state.None? || state.value.contentType.None? {
        LogBlankBody();
        return;
      }
      var ds := state.value;
      var contentType := ds.contentType.value;
      if contentType == TextPlain {
        SetRawTab(ds, PlainTextLabel);
      } else if contentType == ApplicationJson {
        SetRawTab(ds, JsonLabel);
      } else if contentType == ApplicationXml {
        SetRawTab(ds, XmlLabel);
      } else if contentType == TextHtml {
        SetRawTab(ds, HtmlLabel);
      } else if contentType == MultipartFormData {
        if ds.fileTuples.None? {
          LogBlankBody();
          return;
        }
        var files := Entries(ds.fileTuples.value);
        AddFileFields(files);
        if ds.stringTuples.None? {
          LogBlankBody();
          return;
        }
        var strings := Entries(ds.stringTuples.value);
        AddStringFields(strings);
        selectedTab := Some(Form);
      } else if contentType == ApplicationOctetStream {
        filePath := ds.body;
        selectedTab := Some(Binary);
      } else if contentType == ApplicationFormUrlencoded {
        if ds.stringTuples.None? {
          LogBlankBody();
          return;
        }
        var strings := Entries(ds.stringTuples.value);
        AddUrlFields(strings);
        selectedTab := Some(Url);
      }
    }

    /** setRawTab: body into the raw editor, then the combo item, then the raw tab. */
    method SetRawTab(ds: DashboardState, item: string)
      requires Valid()
      modifies this
      ensures Valid()
      ensures View() == WithRawTab(old(View()), item, ds.body)
    {
      rawText := ds.body;
      mode := LabelMode(item);
      ChooseRawLabel(item);
      selectedTab := Some(Raw);
    }

    /** Log the blank-body message at info level. */
    method LogBlankBody()
      modifies this
      ensures View() == Logged(old(View()))
    {
      infoLog := infoLog + [BlankBodyMessage];
    }

    /** addFileField for each row, in order. */
    method AddFileFields(rows: seq<Field>)
      modifies this
      ensures View() == old(View()).(formFiles := old(formFileFields) + rows)
    {
      for i := 0 to |rows|
        invariant View() == old(View()).(formFiles := old(formFileFields) + rows[..i])
      {
        formFileFields := formFileFields + [rows[i]];
      }
    }

    /** addStringField for each row, in order. */
    method AddStringFields(rows: seq<Field>)
      modifies this
      ensures View() == old(View()).(formStrings := old(formStringFields) + rows)
    {
      for i := 0 to |rows|
        invariant View() == old(View()).(formStrings := old(formStringFields) + rows[..i])
      {
        formStringFields := formStringFields + [rows[i]];
      }
    }

    /** The URL editor's addField for each row, in order. */
    method AddUrlFields(rows: seq<Field>)
      modifies this
      ensures View() == old(View()).(urlFields := old(urlFields) + rows)
    {
      for i := 0 to |rows|
        invariant View() == old(View()).(urlFields := old(urlFields) + rows[..i])
      {
        urlFields := urlFields + [rows[i]];
      }
    }
  }
}
