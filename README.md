# Claude Track & Export — a verified model of its core

This browser extension has two parts:
- On claude.ai it shows a usage panel: coloured utilisation bars and "time until reset" labels. It also exports the open conversation as a Markdown file, fetched from the site's API.
- Its popup scrapes a ChatGPT or Claude page into a list of messages and lays them out as a PDF.

A background service worker keeps settings, an export history and session metrics in extension storage. It answers the other two parts' messages.

The model covers the logic of these three pieces in Dafny:

- `text.dfy` (`Text`): the JavaScript string operations the code relies on:
  - `trim`, with JavaScript's full white-space set;
  - `indexOf` / `includes` / `endsWith`;
  - `replace` with a string pattern, which replaces the first occurrence only;
  - the decimal rendering of integers inside template literals.
- `usage_format.dfy` (`UsageFormat`), for `App/src/content.js`: the bar colour and the reset-time label. The label is proved unambiguous by a parser that reads it back.
- `claude_export.dfy` (`ClaudeExport`), for `App/src/content.js`:
  - the conversation id taken from the page path;
  - the mapping of the API's message list;
  - the Markdown encoder, as a loop proved equal to a reference document function;
  - the file-name slug and file name;
  - the export action, as a class holding the content script's settings, the button state and the effects so far.

  The role labels are written exactly as the source file spells them. The file holds the UTF-8 bytes of the 👤/🤖 emoji decoded as Windows-1252, so the model's labels are those Latin characters.
- `page_extract.dfy` (`PageExtract`), for `App/popup.js`:
  - the chat-page and typed-URL checks;
  - platform detection;
  - the per-method candidate filters;
  - one generic `forEach` scan with the three duplicate rules;
  - the method cascade.

  A page is given as records of the candidate elements each selector would return. Each record carries its text and the "mentions user" facts the code reads from it.
- `pdf_layout.dfy` (`PdfLayout`), for `App/popup.js`: the vertical cursor of `generatePDF` and the PDF file name. It is proved to draw every item exactly once, in order. Each item's page and position follow one local rule, and that rule determines the layout completely.
- `metrics_store.dfy` (`MetricsStore`), for `App/src/background.js`:
  - the store, as a class over a key–value map, with one method per message handler;
  - the message dispatch;
  - the storage-change broadcast loop.
- `wrappers.dfy` and `chat.dfy` hold `Option`/`Result` and the two chat roles.

The clock, the locale's date and time strings, the page height, jsPDF's line wrapping, network replies, storage read failures and the browser's notification result are all parameters.

Three things the code does not do, which the model therefore does not do either:
- There is no retry or back-off on a failed fetch. `fetchWithAuth` returns `null` on any failure (App/src/content.js:78-90), so `ExportGuard` has one "Failed to fetch" case.
- The Markdown file name has no 200-character cap. The slug is exactly as long as the conversation name (App/src/content.js:231).
- An unsupported host is not refused by the scrape. `extractConversation` returns platform `""` with no messages (App/popup.js:328). The popup then reports "No messages found".

## Model

| member | source | states |
|---|---|---|
| Text.Trim | App/src/content.js:158 | `trim` returns the longest infix that neither starts nor ends with white space; the removed prefix and suffix are all white space; the result is empty iff the input is all white space |
| Text.TrimIdempotent | App/popup.js:71 | trimming a trimmed string changes nothing |
| Text.IndexOf | App/popup.js:12-14 | `indexOf` returns the first position where the pattern occurs, or none when it occurs nowhere |
| Text.IncludesIff | App/popup.js:12-14 | `includes` holds iff the pattern occurs at some position |
| Text.ReplaceFirst | App/src/content.js:158 | `replace` with a string pattern leaves the string unchanged when the pattern is absent; otherwise the length changes by the difference of the two lengths |
| Text.ReplaceFirstAtLeftmost | App/src/content.js:158 | the occurrence replaced is the leftmost one, and the text around it is kept |
| Text.ReplaceFirstKeepsLater | App/src/content.js:158 | only the first occurrence is replaced; a later non-overlapping occurrence survives, shifted |
| Text.NatToString | App/src/content.js:67 | `${n}` is a non-empty string of decimal digits, starting with "0" only for zero |
| Text.NatToStringRoundTrip | App/src/content.js:67 | reading the rendered digits back gives the number |
| Text.NatToStringInjective | App/src/content.js:256 | different counts give different texts |
| UsageFormat.ProgressColor | App/src/content.js:50-55 | red iff ≥ 90, amber iff in [70, 90), yellow iff in [50, 70), green iff < 50 |
| UsageFormat.ProgressColorMonotone | App/src/content.js:50-55 | a fuller bar never gets a calmer colour |
| UsageFormat.Classify | App/src/content.js:57-73 | blank iff there is no reset time; "Resetting..." iff diff ≤ 0; days/hours, hours/minutes and minutes each bracket the remaining milliseconds between the shown amount and one unit more; "soon" iff the date is unparseable or less than a minute remains |
| UsageFormat.LabelRoundTrip | App/src/content.js:57-73 | every label can be parsed back into its shape and numbers |
| UsageFormat.SameLabelSameClass | App/src/content.js:57-73 | two reset times with the same label fall in the same class with the same numbers |
| ClaudeExport.ConversationId | App/src/content.js:137-140 | none iff no `/chat/` in the path is followed by an id character; otherwise the longest run of `[a-f0-9-]` after the leftmost such `/chat/` |
| ClaudeExport.ExtractMessages | App/src/content.js:148-155 | empty when the conversation or its message list is missing; otherwise one message per API message, in order, user iff the sender is "human", missing text becomes "" |
| ClaudeExport.MarkdownTitle | App/src/content.js:158 | never empty; the conversation name when it is truthy; otherwise the page title with its first " - Claude" removed and trimmed, unless that is empty, in which case "Claude Conversation" |
| ClaudeExport.TitleFromPageTitle | App/src/content.js:158 | an unnamed conversation whose page is titled "X - Claude" is titled X |
| ClaudeExport.JoinSectionsSnoc | App/src/content.js:164-168 | appending a message adds a separator (none before the first) and then its section |
| ClaudeExport.JoinSectionsLength | App/src/content.js:164-168 | n sections are joined by exactly n − 1 separators |
| ClaudeExport.LastSectionEndsBody | App/src/content.js:167 | no separator follows the last message |
| ClaudeExport.ConvertToMarkdown | App/src/content.js:157-171 | the `markdown +=` loop builds exactly the reference document: header, then the sections joined by separators |
| ClaudeExport.MarkdownStartsWithTitle | App/src/content.js:162 | the document opens with "# " and the title |
| ClaudeExport.MarkdownStatesCount | App/src/content.js:162 | the document contains "**Messages:** n" for its n messages |
| ClaudeExport.Slug | App/src/content.js:231 | one output character per input character: ASCII letters lower-cased, digits kept, every other character "_" |
| ClaudeExport.SlugIsSafe | App/src/content.js:231 | a slug holds only lower-case letters, digits and "_" |
| ClaudeExport.SlugIdempotent | App/src/content.js:231 | slugging a slug changes nothing |
| ClaudeExport.ExportFilenameShape | App/src/content.js:231-232 | starts with "claude_", ends with ".md", is as long as the name (or "conversation") plus the time stamp's digits plus 11, and holds only letters, digits, "_" and "." |
| ClaudeExport.ExportGuard | App/src/content.js:200-228 | the export aborts iff export is off, there is no conversation id, the fetch fails, or no messages were found, with each case's message in that order ("Export is disabled in settings", "No conversation open", "Failed to fetch", "No messages"); when it proceeds there is at least one message |
| ClaudeExport.ExportSession.LoadSettings | App/src/content.js:32-48 | stored settings, else the content defaults; a failed read keeps the current settings |
| ClaudeExport.ExportSession.ReportFailure | App/src/content.js:201-228 | an aborted export shows one error notice and changes nothing else |
| ClaudeExport.ExportSession.CompleteExport | App/src/content.js:230-256 | a completed export downloads the Markdown, copies it when the setting is on, sends one `LOG_EXPORT` entry and shows "Exported n msgs" |
| ClaudeExport.ExportSession.Finish | App/src/content.js:211-264 | inside `try`/`finally`: a late abort adds its notice and nothing else, a success does what `CompleteExport` states, and the buttons end enabled |
| ClaudeExport.ExportSession.ExportConversation | App/src/content.js:194-265 | the result is the guard's verdict; the two early aborts leave the buttons untouched, and every later path re-enables them; an abort only adds its error notice; a success does exactly what `CompleteExport` states |
| PageExtract.CheckActiveTab | App/popup.js:11-23 | "download current" is enabled iff the tab URL contains one of the three chat domains |
| PageExtract.ValidateUrlInput | App/popup.js:71-85 | an all-white-space input is refused as empty before the domain check; a non-chat URL is refused next; otherwise the trimmed URL is accepted |
| PageExtract.ValidateUrlStable | App/popup.js:71-85 | an accepted URL is accepted again unchanged |
| PageExtract.DetectPlatform | App/popup.js:178-257 | ChatGPT iff the host contains "openai.com" or "chatgpt.com"; Claude iff not that and it contains "claude.ai"; otherwise none |
| PageExtract.ChatHostsHavePlatform | App/popup.js:12-14 | every hostname that passes the popup's chat-URL test is one the scrape recognises |
| PageExtract.ScreenAuthored | App/popup.js:190-205 | an author-role element yields a message iff it has a content child whose text is not all white space; the content is trimmed; user iff the role attribute is "user" |
| PageExtract.ScreenArticle | App/popup.js:212-224 | an article yields a message iff its trimmed text is longer than 10; user iff its markup or a descendant mentions the user |
| PageExtract.ScreenDiv | App/popup.js:235-241 | a div yields a message iff its trimmed `innerText` is longer than 20 and it has no child div |
| PageExtract.ScreenClaudeElement | App/popup.js:268-274 | a Claude element yields a message iff its trimmed text is longer than 10; user iff its class, its markup or an ancestor mentions the user |
| PageExtract.ScreenParagraph | App/popup.js:292-297 | a paragraph yields a message iff its trimmed text is longer than 20 |
| PageExtract.ScreenedNonEmpty | App/popup.js:191-204 | if any candidate passes its filter, the method's screened list is not empty |
| PageExtract.Dedup | App/popup.js:244-251 | de-duplication never lengthens, is empty iff its input is, and only keeps screened messages |
| PageExtract.DedupKeepAll | App/popup.js:191-224 | the methods without a duplicate check keep every screened message |
| PageExtract.DedupNoAdjacentRepeats | App/popup.js:276 | no kept message repeats the one just before it |
| PageExtract.DedupComparesWithPredecessor | App/popup.js:244-245 | a message is skipped exactly when it repeats the previous screened message, kept or not |
| PageExtract.DedupLastRepeatsLastInput | App/popup.js:244-245 | the last kept message always repeats the last screened one, so comparing with the last kept message and `lastRole` is comparing with the previous screened message |
| PageExtract.DedupOfClean | App/popup.js:276 | a list with no adjacent repeats passes de-duplication unchanged |
| PageExtract.DedupIdempotent | App/popup.js:298 | de-duplicating twice is de-duplicating once |
| PageExtract.Push | App/popup.js:243-251 | the callback's duplicate check, through `lastRole` and the last message pushed, pushes exactly when the rule does not find a repeat |
| PageExtract.Scan | App/popup.js:235-253 | the `forEach` push loop, `lastRole` included, yields exactly the de-duplicated screened messages |
| PageExtract.ClaudeWholeMain | App/popup.js:310-322 | the last resort gives one untrimmed assistant message iff `main` exists and its text is not empty |
| PageExtract.FirstFoundIndex | App/popup.js:208-228 | the first method with a non-empty result; none iff all are empty |
| PageExtract.FirstFoundOfThree | App/popup.js:286-310 | the cascade is method 1's result if non-empty, else method 2's if non-empty, else method 3's |
| PageExtract.ExtractedTitle | App/popup.js:183-184 | ChatGPT: the title element's text, or "ChatGPT Conversation" without one; Claude (line 262): `document.title`, or "Claude Conversation" when it is empty; no platform gives "" |
| PageExtract.CascadeOfThree | App/popup.js:207-228 | running three methods while nothing has been found yields the first non-empty result, and stops right after it |
| PageExtract.ExtractChatGpt | App/popup.js:178-255 | ChatGPT's methods run in order; method 2 runs iff method 1 found nothing; method 3 runs iff both found nothing |
| PageExtract.ExtractClaude | App/popup.js:257-322 | the same short-circuit for Claude's two scans and the last resort |
| PageExtract.ExtractConversation | App/popup.js:171-329 | returns the platform name, title and cascade result; runs no method for an unknown host; every skipped method found nothing; stopping early means the method that ran last found something |
| PageExtract.ScreenedByRoleTrimmed | App/popup.js:191-204 | every message of the author-role method is trimmed and not empty |
| PageExtract.ScreenedByArticleTrimmed | App/popup.js:212-224 | every message of the article method is trimmed and longer than 10 |
| PageExtract.ScreenedByLeafDivTrimmed | App/popup.js:235-251 | every message of the leaf-div method is trimmed and longer than 20 |
| PageExtract.ScreenedByElementTrimmed | App/popup.js:268-283 | every message of Claude's element method is trimmed and longer than 10 |
| PageExtract.ScreenedByParagraphTrimmed | App/popup.js:292-307 | every message of Claude's paragraph method is trimmed and longer than 20 |
| PageExtract.ExtractedMessagesWellFormed | App/popup.js:196-300 | ChatGPT messages are trimmed and non-empty; Claude messages are trimmed and longer than 10 unless they are the last resort's; no platform gives no messages |
| PageExtract.ClaudeNoAdjacentDuplicates | App/popup.js:268-307 | outside the last resort, no two adjacent Claude messages have the same text |
| PageExtract.ClaudeLastResort | App/popup.js:310-322 | when both Claude scans find nothing, the result is the last resort's |
| PageExtract.NothingFoundIff | App/popup.js:208-228 | the scrape finds nothing iff every method of the platform finds nothing |
| PageExtract.CheckExtracted | App/popup.js:47-53 | the popup refuses a missing result with "Failed to extract conversation data" and an empty message list with "No messages found." plus the button's hint (the URL button's copy of these checks is at lines 133-139), and accepts the rest unchanged |
| PageExtract.OutcomeStatus | App/popup.js:58-63 | the status line is "✓ Downloaded n messages!" on success and "✗ Error: " plus the message on failure |
| PdfLayout.PdfTitle | App/popup.js:346 | the PDF title is the chat title, or "Conversation Export" when that is empty |
| PdfLayout.ContentSize | App/popup.js:358-397 | the document has 2 heading items, one header per message, and one item per wrapped line |
| PdfLayout.DrawHeader | App/popup.js:361-378 | the role header is drawn once, at the cursor, or at the top margin of a new page once the cursor is past pageHeight − 40 |
| PdfLayout.DrawLine | App/popup.js:388-393 | one wrapped line is drawn once, at the cursor, or at the top margin of a new page once the cursor is past pageHeight − 30 |
| PdfLayout.DrawLines | App/popup.js:385-394 | each wrapped line is drawn once, in order, below the previous item or at the top of a new page past the line limit |
| PdfLayout.DrawMessage | App/popup.js:361-396 | one message adds its header and its lines, placed by the cursor rule, and leaves the cursor where the next message's header goes |
| PdfLayout.LayOut | App/popup.js:339-397 | the items drawn are exactly the content, in order; the title is at the top margin of page 1; every draw follows the previous one by the cursor rule; the page count is the last draw's page |
| PdfLayout.PagesMonotone | App/popup.js:362-391 | pages never decrease, and grow by at most one per draw |
| PdfLayout.BelowTopMargin | App/popup.js:341-391 | nothing is drawn above the top margin |
| PdfLayout.WithinBottomMargin | App/popup.js:362-391 | on a page at least 60 tall, headers sit at most pageHeight − 40 and lines at most pageHeight − 30 |
| PdfLayout.PageBreakRule | App/popup.js:362-391 | a new page starts exactly when the cursor passes the header or line limit, and it starts at the margin |
| PdfLayout.LayoutUnique | App/popup.js:341-397 | the cursor rule leaves no freedom: the items and the first draw determine every page and position |
| PdfLayout.PdfFilename | App/popup.js:400-401 | the platform, "_Chat_", the first ten characters of the ISO time, ".pdf" |
| PdfLayout.GeneratePdf | App/popup.js:332-413 | the PDF draws the content by the cursor rule from the top of page 1, and gets the dated file name |
| MetricsStore.Defaults | App/src/background.js:27-37 | exactly the settings, history and metrics keys, with the default settings, an empty history and zero metrics |
| MetricsStore.Unshifted | App/src/background.js:118-126 | the new entry comes first, then the old history in order; only the oldest is dropped, and only past 50 |
| MetricsStore.UnshiftedBounded | App/src/background.js:118-126 | a history within 50 stays within 50; below 50 nothing is dropped, at 50 only the oldest |
| MetricsStore.NotificationFor | App/src/background.js:224-229 | the icon is "icons/icon128.png"; the title is the request's, or "Claude Track & Export" when it is missing or empty; the message is the request's, or ""; the priority defaults to 0 |
| MetricsStore.Kind | App/src/background.js:51-86 | every known request has one of the eight known type strings |
| MetricsStore.KindsDistinct | App/src/background.js:51-86 | known requests with the same type string are the same kind of request |
| MetricsStore.Store.OnInstalled | App/src/background.js:24-45 | an install merges the three defaults into storage; an update writes nothing |
| MetricsStore.Store.HandleGetSettings | App/src/background.js:91-100 | answers the stored settings, or the defaults when none are stored |
| MetricsStore.Store.HandleSaveSettings | App/src/background.js:102-110 | replaces only the settings key |
| MetricsStore.Store.HandleLogExport | App/src/background.js:112-147 | puts the entry, stamped now, first in the history; keeps the history within 50 if it was; adds one to exports; leaves refreshes and the refresh time alone |
| MetricsStore.Store.HandleLogRefresh | App/src/background.js:149-170 | adds one to refreshes, stamps the time, keeps exports, and answers the new metrics |
| MetricsStore.Store.HandleGetExportHistory | App/src/background.js:172-181 | answers the stored history, or an empty one |
| MetricsStore.Store.HandleGetSessionMetrics | App/src/background.js:183-196 | answers the stored metrics, or zeros |
| MetricsStore.Store.HandleClearData | App/src/background.js:198-215 | storage holds exactly the three defaults afterwards; the usage data is gone |
| MetricsStore.Store.HandleSendNotification | App/src/background.js:217-246 | with notifications off: skipped, nothing shown; with them on: the notification is shown and the answer carries its id or the error |
| MetricsStore.Store.Dispatch | App/src/background.js:48-88 | each known request gets its handler's response and new state (settings saved; export logged with the entry stamped now; refresh counted; store cleared to the defaults; notification shown or skipped); the read-only requests answer the stored value or its default and change nothing; an unknown type gets "Unknown message type" and changes nothing |
| MetricsStore.FreshInstall | App/src/background.js:24-37 | installing on empty storage leaves exactly the state clearing leaves |
| MetricsStore.BroadcastTargets | App/src/background.js:262-272 | a queried tab is messaged iff its URL does not contain "claude.ai/code/" or end with "claude.ai/code" |
| MetricsStore.BroadcastStorageChange | App/src/background.js:259-275 | the `forEach` sends to exactly those tabs, in query order |
| MetricsStore.NavigationNotice | App/src/background.js:249-256 | a tab gets `URL_CHANGED` with its URL iff it finished loading and its URL contains "claude.ai" |

## Left out

- Network, storage, tabs, scripting, notifications, clipboard and downloads are not modelled as I/O. Their results are parameters (`fetched`, `stored`, `created`, `tabs`), and their effects are recorded as sequences of notices, downloads, clipboard writes and log entries. A storage call that throws, and the "Export failed" / "Failed to generate PDF" catch paths it leads to, are not modelled.
- `getOrganizationId`, `fetchUsageData` and `fetchConversation` (App/src/content.js:92-146) are not modelled beyond the conversation they return. This covers the cached organisation id and the mapping of the usage reply.
- `App/src/injected.js` (fetch/XHR interception), the panel UI, the sidebar observer and the refresh timer in App/src/content.js, and App/src/popup.js are not part of this model.
- In the popup, the button handlers' new-tab wait (30 s timeout, 5 s settle), tab closing and button re-enabling are timers and browser calls; only their checks (`CheckExtracted`, `ValidateUrlInput`) are modelled.
- DOM selection is not modelled. Each method receives the elements its selector would match, with `innerText`, `textContent`, the "child div" fact and the "mentions user" facts already read off them (`outerHTML.toLowerCase().includes('user')`, `closest(...)`, class names).
- jsPDF is not modelled: `splitTextToSize` is the `wrap` parameter, page height is a whole number, and fonts, colours and page width are left out.
- Lengths are counted in Unicode scalar values, where JavaScript counts UTF-16 code units. The `> 10` / `> 20` filters can therefore differ for text with characters outside the Basic Multilingual Plane.
- Slug and ExportFilenameShape: work on Unicode scalar values. The source's `/[^a-z0-9]/gi` has no `u` flag, so JavaScript replaces each UTF-16 code unit. A character outside the Basic Multilingual Plane then becomes "__" in the source and one "_" in the model.
- ClaudeExport.ExportSession.ExportConversation: takes one `now` for both the file name's `Date.now()` stamp (App/src/content.js:232) and the LOG_EXPORT entry's timestamp (App/src/content.js:246). The source reads the clock separately for each, so the two can differ by the time between the reads.
- Dates and times (`toISOString`, `toLocaleDateString`, `toLocaleTimeString`, `Date.now`) are parameters. `new Date(x).getTime()` is modelled by its three outcomes: falsy input, NaN, or an instant.
- Settings are modelled as complete records. A partial settings object saved by `SAVE_SETTINGS`, which would make a missing flag read as false, is not represented.
- MetricsStore.Store.Dispatch: requires that an unrecognised request's type string is not one of the eight known ones. That is what makes the request unrecognised in the source's `switch`.
- PdfLayout.WithinBottomMargin: stated for pages at least 60 units tall. On a shorter page, the top margin itself is past the limits and the code draws there anyway, which `PageBreakRule` still describes.
