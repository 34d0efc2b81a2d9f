# Analytics AI chat: a Dafny model

This project models the deterministic core of the Analytics AI chat application, a Next.js frontend over a FastAPI backend.

On the frontend it models:

- **The chat panel's file registry and chat orchestrator.** Refreshing, adding and deleting files, sending a question, and turning the reply into transcript entries and widgets. This is the class `ChatPanel` over the transition functions of module `ChatInterface`.
- **The KPI card's normalisation of a loosely typed payload** (module `KpiCard`).
- **The chart renderer's guards, key inference and type switch** (module `ChartRenderer`).
- **The browser session id** (module `Session`). A v4 UUID template is filled from supplied random nibbles and kept in local storage by the class `SessionStore`.

On the backend it models:

- **`clean_for_json`** (module `JsonCleaning`).
- **The domain hint from column names** (module `DomainContext`).
- **The Google Sheets URL rewrite of `connect_url`** (module `SheetsUrl`).
- **The in-memory session map.** This covers `delete_file` on the class `UserSession` and the target selection of `/chat` (module `UserSessions`).
- **The widget shaping of `/chat`** (module `ChatWidgets`). The chart post-processing loop is a method over an `array<Json>`, proved against a per-widget normalisation function.

Module `ChatFlow` connects the two halves: a backend dashboard reply becomes the panel's widget list.

Shared modules:

- **`JsonValue`:** values with ordered object members, and `undefined` as `None`.
- **`Js`:** truthiness, `||`, `typeof`, `String`, `Object.keys` order and `JSON.stringify`, after ECMA-262.
- **`Text`:** substring search, lowercasing, trimming and numerals.
- **`Http`:** an outcome or an HTTP error.

Backend calls, confirmations and randomness are parameters. Each handler is one atomic step on the component state.

Four behaviours of the code are easy to miss, and the model keeps them:

- A refresh that fetches an empty list keeps the old selection, even though that file is gone. See `ChatInterface.RefreshEmptyKeepsDanglingSelection`.
- `handleSend` has no in-flight guard and no file guard. Only the send button is disabled while loading, and the Enter key bypasses it. See `ChatInterface.EnterSendsWhileLoading` and `ChatInterface.SendWithoutSelection`.
- A successful add selects the returned id whether or not the refreshed list contains it. See `ChatInterface.AddSelectsReturnedId`.
- A malformed widget list is not turned into an inline "invalid" card. A `null` widget, a non-empty string, or an object whose `length` member is greater than zero fails at render time. See `ChatInterface.RenderWidgets`.

## Model

| member | source | states |
|---|---|---|
| ChatInterface.SelectionAfterRefresh | frontend/src/components/ChatInterface.tsx:73-78 | a non-empty fetched list leaves a selection naming one of its files; an empty list leaves the selection as it was |
| ChatInterface.RefreshSelectsListedFile | frontend/src/components/ChatInterface.tsx:66-82 | a successful refresh with files installs the fetched list, selects a listed file, marks data connected and leaves the transcript alone |
| ChatInterface.RefreshKeepsListedSelection | frontend/src/components/ChatInterface.tsx:74-76 | a truthy selection that is in the fetched list is kept |
| ChatInterface.RefreshEmptyKeepsDanglingSelection | frontend/src/components/ChatInterface.tsx:70-78 | an empty list empties the files but keeps the selection, which then names no listed file |
| ChatInterface.RefreshFailureChangesNothing | frontend/src/components/ChatInterface.tsx:79-81 | a failed fetch leaves the whole state unchanged |
| ChatInterface.RefreshIdempotent | frontend/src/components/ChatInterface.tsx:66-82 | refreshing twice with the same result is refreshing once |
| ChatInterface.AddCallsBackendOnlyWithInput | frontend/src/components/ChatInterface.tsx:102-113 | the backend is called if and only if the upload tab has a file or the URL tab has a non-blank URL |
| ChatInterface.AddEndsNotAdding | frontend/src/components/ChatInterface.tsx:97-126 | every way out of the add handler leaves `isAdding` false and the transcript untouched |
| ChatInterface.AddSelectsReturnedId | frontend/src/components/ChatInterface.tsx:115-119 | a reply with a truthy `file_id` selects exactly that id, listed or not, closes the panel and installs the refreshed list |
| ChatInterface.AddFailureKeepsFiles | frontend/src/components/ChatInterface.tsx:120-123 | a failed add alerts "Failed to add file: " and the message, and keeps files, selection and typed URL |
| ChatInterface.DeclineChangesNothing | frontend/src/components/ChatInterface.tsx:131 | declining the confirmation changes nothing |
| ChatInterface.DeleteFailureOnlyAlerts | frontend/src/components/ChatInterface.tsx:143-146 | a failed delete or refetch only adds the alert |
| ChatInterface.DeleteReselects | frontend/src/components/ChatInterface.tsx:133-142 | deleting the selected file selects the last listed file or nothing; deleting another keeps the selection; files become the refetched list |
| ChatInterface.DeletedIdNotSelected | frontend/src/components/ChatInterface.tsx:138-141 | when the refetched list lacks the deleted id, that id is not left selected |
| ChatInterface.BlankQueryIsNoOp | frontend/src/components/ChatInterface.tsx:150 | a blank or white-space question changes nothing and sends nothing |
| ChatInterface.SendAppendsTwoMessages | frontend/src/components/ChatInterface.tsx:154-190 | a sent question appends exactly the untrimmed question and the assistant entry, in that order |
| ChatInterface.SendClearsInput | frontend/src/components/ChatInterface.tsx:149-192 | a sent question clears the input and ends loading, keeps files and selection, and the request carries the question and the truthy selection |
| ChatInterface.DashboardReply | frontend/src/components/ChatInterface.tsx:164-166 | a dashboard or widget reply shows "Here is the analysis:" with `payload \|\| []` as widgets |
| ChatInterface.TextReply | frontend/src/components/ChatInterface.tsx:167-168 | a text reply shows a truthy payload, else "Analysis complete." |
| ChatInterface.OtherReply | frontend/src/components/ChatInterface.tsx:169-171 | any other reply shows a string payload as it is and any other payload as its JSON text |
| ChatInterface.ErrorReply | frontend/src/components/ChatInterface.tsx:180-188 | a rejected call or a null body gives the fixed apology without widgets |
| ChatInterface.EnterSendsWhileLoading | frontend/src/components/ChatInterface.tsx:194-199 | with the button disabled by loading, Enter still sends and a second question is appended before the first answer |
| ChatInterface.SendWithoutSelection | frontend/src/components/ChatInterface.tsx:444 | without a selection the input is disabled but a typed question is still sent, with no file id |
| ChatInterface.TruncateShowsPrefix | frontend/src/components/ChatInterface.tsx:201-205 | a name that fits is shown whole; a longer one is its first `limit` characters and "...", `limit + 3` in all |
| ChatInterface.TruncateBound | frontend/src/components/ChatInterface.tsx:201-205 | the empty name shows "Unknown"; every other result is at most `limit + 3` long |
| ChatInterface.RenderWidgets | frontend/src/components/ChatInterface.tsx:383-400 | a list view appears exactly for a non-empty array without `null`, with one entry per widget; a render-time `TypeError` happens exactly for an array holding `null`, a non-empty string, or an object whose `length` member is greater than zero; everything else shows nothing |
| ChatInterface.WidgetsInOrder | frontend/src/components/ChatInterface.tsx:385-400 | widget `i` is shown at place `i`, a kpi widget as the KPI card of its payload and a chart widget as the chart of its payload |
| ChatInterface.NoWidgetsForErrorsAndText | frontend/src/components/ChatInterface.tsx:383 | error and text replies show no widgets |
| ChatInterface.ChatPanel.constructor | frontend/src/components/ChatInterface.tsx:33-63 | the initial state: no files, no selection, empty transcript, upload tab |
| ChatInterface.ChatPanel.RefreshFiles | frontend/src/components/ChatInterface.tsx:66-82 | the new state is the refresh of the old one by the fetched list |
| ChatInterface.ChatPanel.HandleAddFile | frontend/src/components/ChatInterface.tsx:97-127 | returns the backend call made and leaves the state of the add handler |
| ChatInterface.ChatPanel.ChooseAddCall | frontend/src/components/ChatInterface.tsx:102-113 | the upload call for a picked file, the connect call for a non-blank URL, else no call; nothing changes |
| ChatInterface.ChatPanel.SettleAdd | frontend/src/components/ChatInterface.tsx:113-126 | the state after the awaited add call settled and `isAdding` was cleared |
| ChatInterface.ChatPanel.HandleDeleteFile | frontend/src/components/ChatInterface.tsx:129-147 | the state after confirmation, delete and refetch |
| ChatInterface.ChatPanel.BeginSend | frontend/src/components/ChatInterface.tsx:149-158 | returns the request sent and leaves the state before the answer |
| ChatInterface.ChatPanel.FinishSend | frontend/src/components/ChatInterface.tsx:158-191 | the state once the answer or the error arrived |
| ChatInterface.ChatPanel.HandleSend | frontend/src/components/ChatInterface.tsx:149-192 | the request and the state of the whole send |
| ChatInterface.ChatPanel.HandleKeyPress | frontend/src/components/ChatInterface.tsx:194-199 | Enter without Shift sends; any other key changes nothing |
| KpiCard.NestedSource | frontend/src/components/KPICard.tsx:30-41 | the nested object is read only when `value` is undefined; it is `kpi` when truthy, else `payload` when truthy, else there is none |
| KpiCard.NormalizeKpi | frontend/src/components/KPICard.tsx:11-65 | the invalid card exactly for falsy data; otherwise a truthy label, a non-null value and the display of that value |
| KpiCard.NestedPath | frontend/src/components/KPICard.tsx:30-47 | without a top-level `value`, the trend is the nested `trend` if truthy, else `trend || change`, and the value is the nested `value`, or "N/A" when it is undefined or null; with no nested object, the top-level trend and "N/A" |
| KpiCard.LabelFallback | frontend/src/components/KPICard.tsx:25-39 | the label is the first truthy of nested label, `label`, `title`, else "Unknown" |
| KpiCard.TopLevelValueWins | frontend/src/components/KPICard.tsx:25-30 | a present top-level value (even null) means nothing nested is read |
| KpiCard.MissingValueIsNotAvailable | frontend/src/components/KPICard.tsx:44-47 | an undefined or null value shows "N/A"; any other value is kept |
| KpiCard.ZeroValueKept | frontend/src/components/KPICard.tsx:44-50 | a numeric zero is kept and shown as a number |
| KpiCard.NormalizeKpiReadsOnly | frontend/src/components/KPICard.tsx:24-41 | the card depends only on the members `value`, `kpi`, `payload`, `label`, `title`, `trend` and `change` |
| KpiCard.PayloadIgnoredWhenKpiPresent | frontend/src/components/KPICard.tsx:32-40 | with a truthy `kpi`, replacing `payload` changes nothing |
| KpiCard.FalsyTrendIsNeutral | frontend/src/components/KPICard.tsx:53-56 | a falsy trend gives the neutral icon and no trend line |
| KpiCard.ClassifyIgnoresCase | frontend/src/components/KPICard.tsx:57-64 | the trend class does not depend on letter case |
| KpiCard.PositiveBeforeNegative | frontend/src/components/KPICard.tsx:58-64 | a trend containing both `+` and `-` is positive |
| KpiCard.RevenueExample | frontend/src/components/KPICard.tsx:24-65 | the card of `{kpi: {label: "Revenue", value: 5000, trend: "+12%"}}` |
| Js.ObjectKeysSameKeys | frontend/src/components/ChartRenderer.tsx:47 | `Object.keys` lists each key of the row, as often as the row has it |
| Js.ObjectKeysInsertionOrder | frontend/src/components/ChartRenderer.tsx:47 | without array-index keys, `Object.keys` is insertion order |
| ChartRenderer.FindKeyOfTypeNone | frontend/src/components/ChartRenderer.tsx:54-55 | the key search finds nothing exactly when no key has the type |
| ChartRenderer.FindKeyOfTypeIsFirst | frontend/src/components/ChartRenderer.tsx:54-55 | a found key has no key of the requested type before it |
| ChartRenderer.RenderChart | frontend/src/components/ChartRenderer.tsx:27-166 | nothing exactly for falsy data or rows; the invalid-data message exactly for non-array rows; a drawn chart has the given rows and one of the three kinds |
| ChartRenderer.EmptyRowsUseDefaults | frontend/src/components/ChartRenderer.tsx:28-45 | an empty row list renders with the declared keys or `label`/`value` |
| ChartRenderer.KindOfOnlyThree | frontend/src/components/ChartRenderer.tsx:71-166 | exactly "bar", "line" and "pie" name a chart kind |
| ChartRenderer.OnlyThreeKinds | frontend/src/components/ChartRenderer.tsx:71-166 | a chart is drawn if and only if the type is one of the three; otherwise "unsupported" |
| ChartRenderer.ScatterUnsupported | frontend/src/components/ChartRenderer.tsx:164-166 | "scatter" reaches the unsupported branch |
| ChartRenderer.PresentKeysKept | frontend/src/components/ChartRenderer.tsx:49-58 | a key the first row owns is kept; a missing one is replaced by the inferred key |
| ChartRenderer.UndeclaredKeysResolved | frontend/src/components/ChartRenderer.tsx:33-58 | without declared keys, `label` and `value` are checked against the first row |
| ChartRenderer.InferXIsFirstStringKey | frontend/src/components/ChartRenderer.tsx:54 | a row without keys gives undefined; otherwise the x key is the first key whose value is a string, unless that key is the empty string or no value is a string, and then it is the first key |
| ChartRenderer.InferYFallsBack | frontend/src/components/ChartRenderer.tsx:55 | a row without keys gives undefined; otherwise the y key is the first key whose value is a number, unless that key is the empty string or no value is a number, and then it is the second key if there is a non-empty one, else the first key |
| ChartRenderer.NamedRowKeys | frontend/src/components/ChartRenderer.tsx:47 | a row without index keys offers its keys in written order |
| ChartRenderer.MonthRevenueExample | frontend/src/components/ChartRenderer.tsx:33-58 | a bar chart over `{month: "Jan", revenue: 100}` rows is drawn over `month` and `revenue` |
| Session.VariantNibble | frontend/src/lib/session.ts:15 | `r & 0x3 \| 0x8` is between 8 and 11 and keeps the two low bits |
| Session.FillTemplateShape | frontend/src/lib/session.ts:13-17 | every `x` becomes a lower-case hex digit, `y` one of `89ab`, other characters are kept |
| Session.TemplateLayout | frontend/src/lib/session.ts:13 | the template has 36 characters with dashes, `4` and `y` at the UUID positions |
| Session.TemplateIsLiteral | frontend/src/lib/session.ts:13 | the template is the literal of the source |
| Session.UuidShape | frontend/src/lib/session.ts:12-18 | an id is 36 characters, dashes at 8, 13, 18, 23, `4` at 14, `8`/`9`/`a`/`b` at 19, hex digits elsewhere |
| Session.TemplateSlots | frontend/src/lib/session.ts:13 | the template has 31 placeholders |
| Session.UuidUsesThirtyOneDraws | frontend/src/lib/session.ts:13-14 | the id depends on the first 31 draws only |
| Session.ReadNibblesOfFill | frontend/src/lib/session.ts:13-17 | the nibble written into each placeholder is read back from the id: the draw for an `x`, its variant nibble for a `y` |
| Session.DistinctEncodingsDistinctIds | frontend/src/lib/session.ts:13-17 | draws whose placeholder nibbles differ give different ids |
| Session.GetOrCreate | frontend/src/lib/session.ts:24-41 | outside a browser "server-side-render" and no storage change; in a browser the stored id is the returned one; other keys untouched |
| Session.Cleared | frontend/src/lib/session.ts:46-50 | only the session key is removed |
| Session.ExistingIdKept | frontend/src/lib/session.ts:31-40 | a stored non-empty id is returned and storage is not written |
| Session.MissingIdCreated | frontend/src/lib/session.ts:34-38 | an absent or empty id is replaced by the generated one |
| Session.SecondCallSameId | frontend/src/lib/session.ts:31-40 | once created, later calls return the same id |
| Session.ClearThenCreate | frontend/src/lib/session.ts:46-50 | after clearing, the next call creates a new id |
| Session.GeneratedIdNonEmpty | frontend/src/lib/session.ts:12-18 | a generated id is never empty |
| Session.SessionStore.GetSessionId | frontend/src/lib/session.ts:24-41 | the id returned and the storage left are those of `GetOrCreate` |
| Session.SessionStore.ClearSession | frontend/src/lib/session.ts:46-50 | the storage left is that of `Cleared` |
| JsonCleaning.CleanForJson | backend/main.py:276-285 | non-finite numbers become null; lists keep length, dicts keep keys; other values unchanged |
| JsonCleaning.CleanIsClean | backend/main.py:276-285 | the result holds no NaN or infinity |
| JsonCleaning.CleanKeepsClean | backend/main.py:276-285 | a clean value is returned unchanged |
| JsonCleaning.CleanChangesOnlyNonFinite | backend/main.py:277-285 | cleaning changes a value if and only if it holds a NaN or infinity |
| JsonCleaning.CleanIdempotent | backend/main.py:276-285 | cleaning twice is cleaning once |
| JsonCleaning.CleanMember | backend/main.py:281-282 | every dict member keeps its key and place with its value cleaned |
| DomainContext.ContextTextInjective | backend/main.py:290-296 | the four hint sentences are distinct |
| DomainContext.RetailKeywordInColumn | backend/main.py:288-290 | a retail keyword in any one column, in any case, gives the retail hint |
| DomainContext.KeywordAvoidsGeneral | backend/main.py:288-296 | a keyword of any domain in a column avoids the general hint |
| DomainContext.AnyInJoinedIff | backend/main.py:288-294 | a domain's keyword is found in the joined column names exactly when one column name holds it, since no keyword contains the joining space |
| DomainContext.DetectByColumn | backend/main.py:288-296 | the hint is retail when some column holds a retail keyword, else education, else HR, and general exactly when no column holds any keyword |
| DomainContext.EducationBeforeHr | backend/main.py:291-294 | without a retail keyword, an education keyword gives the education hint whatever HR keywords are present |
| DomainContext.DetectIgnoresCase | backend/main.py:288 | the result does not depend on the case of column names |
| DomainContext.SubstringMatch | backend/main.py:289 | keywords match as substrings: "Costume" is retail |
| SheetsUrl.RunFrom | backend/main.py:432 | the greedy run of class characters from a position |
| SheetsUrl.FindSheetId | backend/main.py:432 | a found id is non-empty and made of `[a-zA-Z0-9-_]` |
| SheetsUrl.FindGid | backend/main.py:448 | a found gid is non-empty digits |
| SheetsUrl.FindSheetIdNone | backend/main.py:432-433 | no id is found exactly when no `/d/` is followed by an id character |
| SheetsUrl.FindSheetIdLeftmost | backend/main.py:432-434 | a found id is the run after the leftmost match |
| SheetsUrl.FindGidNone | backend/main.py:448-449 | no gid exactly when no `#gid=` or `&gid=` is followed by a digit |
| SheetsUrl.FindGidLeftmost | backend/main.py:448-449 | a found gid is the digits of the leftmost match |
| SheetsUrl.ConnectUrlTarget | backend/main.py:428-452 | every error `connect_url` raises from the rewrite reaches the client as 500 |
| SheetsUrl.OtherUrlsPassThrough | backend/main.py:428-431 | a URL without the Sheets host is only stripped |
| SheetsUrl.SheetsUrlRewritten | backend/main.py:431-450 | a Sheets URL with an id becomes the export link of the leftmost id, with `&gid=` exactly when a gid is present |
| SheetsUrl.GidKept | backend/main.py:448-450 | the kept gid is the digits of the leftmost match |
| SheetsUrl.InvalidSheetRefused | backend/main.py:451-452 | a Sheets URL without an id is refused with 400 |
| SheetsUrl.RefusalIsServerError | backend/main.py:530-534 | that refusal reaches the client as 500 "Failed to connect: 400: Invalid Google Sheet URL" |
| SheetsUrl.IdSurvivesRewrite | backend/main.py:450 | searching the export link from its first character finds the same id again |
| UserSessions.ChatTarget | backend/main.py:603-606 | an accepted target is a registered file, and is the requested id when that is truthy |
| UserSessions.DeleteRemovesOnlyThatFile | backend/main.py:383-392 | a registered id is removed, every other file kept, and the active file cleared exactly when it was that id |
| UserSessions.DeleteUnknownIsServerError | backend/main.py:410-415 | an unknown id changes nothing and gives 500 "404: File not found" |
| UserSessions.DeleteKeepsConsistent | backend/main.py:388-392 | deleting keeps the active file registered |
| UserSessions.DeletedFileNotTargeted | backend/main.py:603-606 | after a delete, `/chat` never targets the deleted file |
| UserSessions.ActiveFileIsFallback | backend/main.py:603-606 | without a truthy requested id, the active file is the target, or 400 when there is none |
| UserSessions.UnknownRequestRefused | backend/main.py:605-606 | an unregistered requested id is refused even when an active file exists |
| UserSessions.UserSession.constructor | backend/main.py:120 | a new session entry has no files and no active file |
| UserSessions.UserSession.DeleteFile | backend/main.py:383-415 | the session and reply after the in-memory delete, keeping the active file registered |
| ChatWidgets.FirstNonObject | backend/main.py:722-723 | the first widget that is not a dict, with every widget before it a dict; none when all are |
| ChatWidgets.NormalizeChart | backend/main.py:723-733 | one pass of the loop body equals the widget's normalisation |
| ChatWidgets.PostProcess | backend/main.py:722-733 | the loop stops at the first non-dict; the widgets before it are normalised in place and the rest untouched |
| ChatWidgets.Reply | backend/main.py:703-743 | `/chat` from the parsed answer returns the reply of `ChatReply` |
| ChatWidgets.KpiBeforeChart | backend/main.py:704-708 | a dict with `kpi`/`chart` gives those members, `kpi` first, absent ones left out |
| ChatWidgets.ListIsWidgetList | backend/main.py:712-713 | a list is taken as it is |
| ChatWidgets.WidgetDictAlone | backend/main.py:714-716 | a dict with `vis_type` is the only widget |
| ChatWidgets.TypedDictWrapped | backend/main.py:717-719 | a dict with `type` is wrapped whole, as a kpi widget exactly when its type is "kpi" |
| ChatWidgets.NoWidgets | backend/main.py:711-719 | any other answer gives no widgets |
| ChatWidgets.NormalizedPayloadIsOneSet | backend/main.py:725-733 | the three writes to `type` amount to one |
| ChatWidgets.ChartTypeNormalized | backend/main.py:725-733 | the chart type ends up a lower-case string, never "column": "bar" when missing, else the lowercased text with "column" read as "bar" |
| ChatWidgets.ChartOtherMembersKept | backend/main.py:725-733 | no other payload member changes; a new `type` goes last |
| ChatWidgets.ChartPayloadIdempotent | backend/main.py:725-733 | a normalised payload is unchanged by a second pass |
| ChatWidgets.NormalizeIdempotent | backend/main.py:722-733 | normalising a widget twice is normalising it once; non-chart widgets are unchanged |
| ChatWidgets.ReplyKind | backend/main.py:735-739 | the reply is a dashboard exactly when there are widgets and all are dicts, text otherwise |
| ChatWidgets.DashboardPayload | backend/main.py:735-737 | the dashboard payload holds every widget, normalised and cleaned, in order |
| ChatWidgets.FailureAndText | backend/main.py:739-743 | a non-dict widget fails the reply with "Analysis failed: " and the error; no widgets gives the text of the answer |
| ChatFlow.DashboardShownAsWidgets | backend/main.py:735-737 | a dashboard reply reaches the panel as the analysis intro with one widget per shaped widget, in order |
| ChatFlow.FailureShownAsText | backend/main.py:741-743 | a failed reply is shown as its failure text with no widgets |

## Left out

- React's asynchronous state updates and stale closures are not modelled: each handler is one atomic step, and `handleSend` is split at its one await (`BeginSend`, `FinishSend`) only to show that nothing guards a second send.
- The rotating loading label (ChatInterface.tsx:39-52), the sidebar toggle, `handleDataConnected` (the DataConnect callback) and the mount-time refresh effect are not modelled; they call the modelled refresh or only change display state.
- The API wrapper (frontend/src/lib/api.ts) is not part of this model: each backend call's result is a parameter (`fetched`, `reply`, `deleted`), and `confirm`/`alert` become a parameter and the `alerts` field.
- ChatInterface.TruncateFilename: lengths count Unicode scalar values, not the UTF-16 code units of JavaScript's `length`.
- KpiCard.NormalizeKpi: `toLocaleString` is locale dependent and is kept abstract as the display `Localized(n)`.
- Lowercasing (`Text.Lower`) maps ASCII letters, the Kelvin sign and capital I with dot, and leaves other characters alone; JavaScript's `toLowerCase` and Python's `str.lower` also map the rest of Unicode.
- ChartRenderer.OwnKeys: a string row has one index key per character (Unicode scalar value); JavaScript has one per UTF-16 code unit, so the two differ for characters outside the Basic Multilingual Plane.
- ChartRenderer.HasOwn: the index range of a string row counts characters, not UTF-16 code units, as for `ChartRenderer.OwnKeys`.
- ChartRenderer.Member: a string row's member at an index is the character at that position, not the UTF-16 code unit, as for `ChartRenderer.OwnKeys`.
- ChatInterface.RenderWidgets: ToNumber of a string (used when an object's `length` member is a string or an array) is the parameter `toNumber`.
- Js.JsString: an object with its own `toString` member is converted to "[object Object]" like any other object; JavaScript throws a `TypeError` there, because a JSON member is never callable. `Js.GreaterThanZero` converts objects the same way.
- The drawing done by the chart library and the random chart id are not modelled.
- Session.GenerateUuid: `Math.random()` is a supplied function from draw number to nibble.
- Python's `str()` of a value that is not a string, and the text of the `AttributeError` raised by `.get` on a non-dict widget, are parameters (`pyStr`, `attributeError`).
- `str()` of an `HTTPException` is taken to be "status: detail", as Starlette defines it; `Http.ExceptionText` writes that out.
- UserSessions.UserSession.DeleteFile: the database and disk steps after the in-memory removal are assumed to succeed; if they raised, the removal would stay and the reply would be 500.
- How the per-user session is found or rebuilt from the database (`get_session_user_id`, `get_user_session`) is not modelled.
- The agent call and the parsing of its answer (main.py:686-701) are not modelled; the parsed answer is the input of `ChatWidgets.ChatReply`, and it is taken to be JSON-shaped. `ast.literal_eval` can also give tuples, sets or dicts with non-string keys, which the model does not represent; a tuple answer, for one, gets the text reply.
- Python dicts have unique keys; the model's objects are member sequences, and a lookup reads the first member with the key.
- Python distinguishes `int` and `float`; the model has one number type. NaN and infinities are always floats, so `clean_for_json` is unaffected.
- A list answer may hold the same dict twice, and the in-place loop would then normalise it twice; the model normalises array entries as values, which gives the same result because `ChatWidgets.NormalizeIdempotent` holds.
- SheetsUrl.RewriteSheetsUrl: that rewriting an export link again leaves it unchanged is not proved; `SheetsUrl.IdSurvivesRewrite` proves only that a search of the whole export link finds the id again.
- The sheet-title scrape, the CSV fetch and the rest of `connect_url`, uploads, authentication routes and the other backend endpoints are outside this model.
