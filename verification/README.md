# Everest request-body composer, modelled in Dafny

Everest is a desktop HTTP client. This project models its request-body
composer, `BodyTabController`. The composer has four tabs: raw text, form
data (multipart), binary file and URL-encoded. The raw tab has a combo box
with four items: "PLAIN TEXT", "JSON", "XML" and "HTML". The controller works
in two directions:

- **compose** (`getBasicRequest`): turn the selected tab, the combo item and
  the editor contents into a `DataDispatchRequest`. The selection decides the
  content type and the shape of the body.
- **restore** (`setState`, `setRawTab`): read a `DashboardState` snapshot and
  switch on its content type. That picks a tab and a combo item, fills in the
  text fields, and appends one editor row per tuple of the snapshot.

Files:

- `wrappers.dfy`: `Option`, used for Java references that may be null.
- `media_types.dfy`: the seven JAX-RS media types, the combo items, the
  highlight modes, and the mappings between them.
- `requests.dfy`: the request and snapshot values, and the body shape each
  content type calls for (`WellShaped`). It also holds the tuple maps and the
  proof that rebuilding a map from its entries in any order gives back the map.
- `body_tab.dfy`: the composer as a value (`ComposerView`), compose as a
  function (`BasicRequest`), and restore as a relation (`Restores`). A relation
  is needed because a Java map's iteration order is unspecified. This file
  also holds the class `BodyTabController`, whose `SetState` is proved to
  satisfy `Restores`, and the lemmas, including the compose–restore–compose
  round trip.

## Model

| member | source | states |
|---|---|---|
| `MediaTypes.ContentTypeOfLabel` | src/main/java/com/rohitawate/everest/controllers/BodyTabController.java:119-135 | The raw content type is always one of text/plain, application/json, application/xml or text/html. An unknown item falls back to text/plain. For each of the four items, the content type restores back to that same item. |
| `MediaTypes.RawLabelOf` | src/main/java/com/rohitawate/everest/controllers/BodyTabController.java:168-180 | `setState` picks a combo item exactly for the four raw media types, and the item it picks is one of the four combo items. |
| `MediaTypes.RawLabelOfRoundTrip` | src/main/java/com/rohitawate/everest/controllers/BodyTabController.java:168-180 | Composing from the item restored for a raw content type gives back that content type. |
| `MediaTypes.UnknownLabelRestoresAsPlainText` | src/main/java/com/rohitawate/everest/controllers/BodyTabController.java:133-134 | A combo value outside the four items is sent as text/plain, so it restores as "PLAIN TEXT". |
| `MediaTypes.LabelMode` | src/main/java/com/rohitawate/everest/controllers/BodyTabController.java:76-93 | The combo listener's mode is the mode of the item's media type. It is Plain exactly when the item is none of "JSON", "XML" and "HTML". |
| `MediaTypes.ModeOfMediaType` | src/main/java/com/rohitawate/everest/controllers/BodyTabController.java:209-221 | Only application/json, application/xml and text/html give a mode other than Plain. |
| `MediaTypes.LabelModeInjective` | src/main/java/com/rohitawate/everest/controllers/BodyTabController.java:79-91 | No two of the four items share a mode. |
| `MediaTypes.ModeOfLabelAsWrittenIsPlain` | src/main/java/com/rohitawate/everest/controllers/BodyTabController.java:206-221 | As written, setRawTab's switch gives Plain for every combo item. For "JSON", "XML" and "HTML" this differs from the listener's mode. |
| `Requests.TuplesOf` | src/main/java/com/rohitawate/everest/controllers/BodyTabController.java:139-146 | The tuple map of an editor's rows has exactly the rows' keys. Each key maps to the value of the last row with that key. |
| `Requests.TuplesOfAppend` | src/main/java/com/rohitawate/everest/controllers/BodyTabController.java:183-197 | Rows appended after existing ones override them key by key: the result is a right-biased union. |
| `Requests.TuplesOfEnumeration` | src/main/java/com/rohitawate/everest/controllers/BodyTabController.java:183-197 | Rows made from a map's entries, in any order, stand for exactly that map. |
| `Requests.Entries` | src/main/java/com/rohitawate/everest/controllers/BodyTabController.java:183-187 | The loop over `entrySet()` visits every entry of the map once, in some order. |
| `BodyTab.BasicRequest` | src/main/java/com/rohitawate/everest/controllers/BodyTabController.java:113-150 | The request keeps its request type and always has the body shape its content type calls for. It has a content type exactly when a tab is selected. Raw: the type comes from the combo item and the body is the editor text. Form: multipart/form-data with the form's string and file tuples. Binary: application/octet-stream with the file path as body. URL: application/x-www-form-urlencoded with the URL editor's tuples. |
| `BodyTab.SelectLabel` | src/main/java/com/rohitawate/everest/controllers/BodyTabController.java:76-93 | Selecting an item shows that item. Selecting the item already shown changes nothing. Selecting a different item sets the mode to that item's mode. Nothing else changes. |
| `BodyTab.WithRawTab` | src/main/java/com/rohitawate/everest/controllers/BodyTabController.java:206-226 | setRawTab, corrected: the raw tab is selected and shows the item and the snapshot's body, and the mode matches the item. Nothing else changes. |
| `BodyTab.RawTabAsWritten` | src/main/java/com/rohitawate/everest/controllers/BodyTabController.java:206-226 | setRawTab as written: it selects the raw tab, the item and the body, and changes nothing else. When the combo value changes, the mode is the item's mode. When the item is already shown, the mode is the media-type switch applied to the item, which is Plain. |
| `BodyTab.RawTabAsWrittenLosesMode` | src/main/java/com/rohitawate/everest/controllers/BodyTabController.java:206-225 | A JSON snapshot restored while the combo already shows "JSON" leaves the mode Plain as written. The corrected version keeps JSON. |
| `BodyTab.Logged` | src/main/java/com/rohitawate/everest/controllers/BodyTabController.java:201-203 | Catching the null dereference appends the blank-body info message and changes nothing else. |
| `BodyTab.RawRoundTrip` | src/main/java/com/rohitawate/everest/controllers/BodyTabController.java:168-179 | Restoring the content type composed from any of the four items selects the raw tab and the same item. The editor text becomes the snapshot's body and the mode matches the item. |
| `BodyTab.RestoreNeverClears` | src/main/java/com/rohitawate/everest/controllers/BodyTabController.java:181-199 | Restoring never removes editor rows or log entries. The old ones stay as a prefix. |
| `BodyTab.RestoreKeepsModeAgreement` | src/main/java/com/rohitawate/everest/controllers/BodyTabController.java:206-225 | Every restore keeps the mode in step with the combo item. |
| `BodyTab.UnknownContentTypeIsIgnored` | src/main/java/com/rohitawate/everest/controllers/BodyTabController.java:168-200 | A content type outside the seven changes nothing, because the switch has no default. |
| `BodyTab.NullStateOnlyLogs` | src/main/java/com/rohitawate/everest/controllers/BodyTabController.java:166-203 | A null snapshot or a null content type only logs the info message. No tab is switched. |
| `BodyTab.MultipartWithoutStringTuples` | src/main/java/com/rohitawate/everest/controllers/BodyTabController.java:181-190 | If the string tuples are null, the file rows already appended stay. The message is logged and the form tab is not selected. |
| `BodyTab.RestoreFormRows` | src/main/java/com/rohitawate/everest/controllers/BodyTabController.java:181-190 | A complete multipart snapshot appends one file row per file tuple and one string row per string tuple, then selects the form tab. |
| `BodyTab.RestoredTuplesOverride` | src/main/java/com/rohitawate/everest/controllers/BodyTabController.java:181-199 | After a multipart or URL-encoded restore, composing gives the editor's earlier tuples overridden by the restored ones. |
| `BodyTab.AppendedTuples` | src/main/java/com/rohitawate/everest/controllers/BodyTabController.java:183-197 | Appending a map's entries to existing rows gives the existing tuples overridden by the map. |
| `BodyTab.AppendedOntoEmpty` | src/main/java/com/rohitawate/everest/controllers/BodyTabController.java:183-197 | Rows that hold only a map's entries stand for that map. |
| `BodyTab.RestoreComposeCarries` | src/main/java/com/rohitawate/everest/controllers/BodyTabController.java:113-199 | Restore a snapshot with one of the seven content types into a composer with empty editors, then compose. The snapshot carries the result: same content type, and the same body or tuple maps wherever the request sets them. |
| `BodyTab.ComposeRestoreCompose` | src/main/java/com/rohitawate/everest/controllers/BodyTabController.java:113-199 | Compose a request, take a snapshot that carries it, restore into a composer with empty editors, and compose again. The result is the same request, for every tab. |
| `BodyTab.RawComposeRestoreCompose` | src/main/java/com/rohitawate/everest/controllers/BodyTabController.java:118-179 | The round trip for the raw tab. |
| `BodyTab.FormComposeRestoreCompose` | src/main/java/com/rohitawate/everest/controllers/BodyTabController.java:138-190 | The round trip for the form tab. |
| `BodyTab.UrlComposeRestoreCompose` | src/main/java/com/rohitawate/everest/controllers/BodyTabController.java:145-198 | The round trip for the URL-encoded tab. |
| `BodyTab.BodyTabController.constructor` | src/main/java/com/rohitawate/everest/controllers/BodyTabController.java:66-69 | The combo shows "PLAIN TEXT" with mode Plain, the editors are empty, and the layout's first tab is selected. |
| `BodyTab.BodyTabController.ChooseRawLabel` | src/main/java/com/rohitawate/everest/controllers/BodyTabController.java:76-93 | Choosing a combo item has the effect of `SelectLabel`. |
| `BodyTab.BodyTabController.SetState` | src/main/java/com/rohitawate/everest/controllers/BodyTabController.java:166-204 | The new composer state is a `Restores` result of the old state and the snapshot. The mode still matches the item. |
| `BodyTab.BodyTabController.SetRawTab` | src/main/java/com/rohitawate/everest/controllers/BodyTabController.java:206-226 | The new composer state is `WithRawTab` of the old state. |
| `BodyTab.BodyTabController.LogBlankBody` | src/main/java/com/rohitawate/everest/controllers/BodyTabController.java:202 | Only the info message is appended. |
| `BodyTab.BodyTabController.AddFileFields` | src/main/java/com/rohitawate/everest/controllers/BodyTabController.java:183-184 | The rows are appended to the file rows in order. Nothing else changes. |
| `BodyTab.BodyTabController.AddStringFields` | src/main/java/com/rohitawate/everest/controllers/BodyTabController.java:187-188 | The rows are appended to the form's string rows in order. Nothing else changes. |
| `BodyTab.BodyTabController.AddUrlFields` | src/main/java/com/rohitawate/everest/controllers/BodyTabController.java:196-197 | The rows are appended to the URL rows in order. Nothing else changes. |

## Left out

- The request dispatch pool, request managers, executor and history store are not modelled. Their code is not part of this model. `src/main/java/com/rohitawate/everest/misc/Services.java` only constructs them on a background thread, so it is left out too.
- Restoring an unknown or blank content type might be expected to show a blank plain-text raw view. The code does not do that, and the model follows the code: an unknown content type changes nothing, and a null one only logs a message.
- FXML loading, theming and scroll-pane setup in `initialize` are not modelled (UI resource loading). If the form or URL sub-controller fails to load, it stays null; that null is not modelled either.
- `browseFile` is left out because it is a file-chooser dialog. Its only rule is that a cancelled dialog gives an empty path.
- Editor rendering and syntax highlighting are left out. Only the chosen mode value is kept. The model assumes that `setText(text, mode)` and `setMode` both apply the mode they are given, and that a new editor starts in Plain mode (the constructor and `Valid()` rely on this); the editor class is not part of this model.
- The form and URL sub-controllers are not part of this model. `getStringTuples` and `getFileTuples` are modelled by `TuplesOf`: every row goes into a map, and a later row wins over an earlier one with the same key. `addField` and its variants are modelled as appending a row.
- The sub-controllers' initial rows are not modelled. The constructor starts every editor empty and takes the tab selected first as a parameter, because the layout file is not part of this model.
- `BodyTab.Restores`: a null snapshot body is not modelled. `body` is a plain string, because what the editor and the text field do with null is not part of this model.
- `BodyTab.Restores`: null keys or values inside a tuple map are not modelled. `toString` would throw on them partway through a loop. Tuple maps here are string-to-string.
- A null combo value in `getBasicRequest` is not modelled. `initialize` always selects an item first.
- Log timestamps and the logging sink are not modelled. Logging is a list of info messages.

## Findings

| source | as written | input that shows it | evidently intended | confidence | as-written member | corrected member |
|---|---|---|---|---|---|---|
| src/main/java/com/rohitawate/everest/controllers/BodyTabController.java:206-224 | `setRawTab` compares its argument against media-type strings. `setState` passes it combo items ("JSON", …), so the mode it computes is always Plain. Only the combo listener fixes the mode, and the listener fires only when the selected item actually changes. | Restore a snapshot with content type application/json while the combo already shows "JSON". The editor ends in Plain mode. | The mode of the restored item (JSON). | not executed; depends on the editor applying the mode passed to `setText` | `BodyTab.RawTabAsWritten` (shown by `BodyTab.RawTabAsWrittenLosesMode`) | `BodyTab.WithRawTab` (with `BodyTab.RestoreKeepsModeAgreement`) |

The rest of the model, `BodyTabController.SetRawTab` included, uses the corrected mode.
