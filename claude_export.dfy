/**
 * The Markdown export of the tracker's content script (App/src/content.js):
 * the conversation id read from the page path, the mapping of the API's
 * message list, the Markdown document, the download file name, and the export
 * action with its abort cases and the export buttons' disabled flag. Network
 * replies, the page title, the clock and the locale's date and time strings are
 * parameters.
 */
module ClaudeExport {
  import opened Wrappers
  import opened Text
  import opened Chat
  import opened Seqs
  import MetricsStore

  // ---------------------------------------------------------------------------
  // Conversation id: `pathname.match(/\/chat\/([a-f0-9-]+)/)`
  // ---------------------------------------------------------------------------

  const ChatSegment := "/chat/"

  predicate IsIdChar(c: char) {
    ('a' <= c <= 'f') || ('0' <= c <= '9') || c == '-'
  }

  /** The pattern matches at `i`: `/chat/` followed by at least one id character. */
  predicate MatchesAt(path: string, i: nat) {
    OccursAt(path, ChatSegment, i) && i + |ChatSegment| < |path| && IsIdChar(path[i + |ChatSegment|])
  }

  /** `run` is a longest run of id characters of `path` starting at `start`. */
  predicate IsMaximalRun(path: string, start: nat, run: string) {
    && start + |run| <= |path|
    && path[start..start + |run|] == run
    && (forall k :: 0 <= k < |run| ==> IsIdChar(run[k]))
    && (start + |run| == |path| || !IsIdChar(path[start + |run|]))
  }

  function IdRunLength(path: string, from: nat): (k: nat)
    requires from <= |path|
    decreases |path| - from
    ensures from + k <= |path|
    ensures forall j :: from <= j < from + k ==> IsIdChar(path[j])
    ensures from + k < |path| ==> !IsIdChar(path[from + k])
  {
    if from < |path| && IsIdChar(path[from]) then 1 + IdRunLength(path, from + 1) else 0
  }

  function FirstMatchFrom(path: string, from: nat): (r: Option<nat>)
    requires from <= |path|
    decreases |path| - from
    ensures r.Some? ==> from <= r.value && MatchesAt(path, r.value)
    ensures r.Some? ==> forall j :: from <= j < r.value ==> !MatchesAt(path, j)
    ensures r.None? ==> forall j :: from <= j <= |path| ==> !MatchesAt(path, j)
  {
    if MatchesAt(path, from) then Some(from)
    else if from == |path| then None
    else FirstMatchFrom(path, from + 1)
  }

  /**
   * `getCurrentConversationId()`: the id characters after the leftmost `/chat/`
   * that is followed by at least one of them, as many as follow; `None` when
   * no `/chat/` in the path is followed by an id character.
   */
  function ConversationId(path: string): (id: Option<string>)
    ensures id.None? <==> forall i: nat :: i <= |path| ==> !MatchesAt(path, i)
    ensures id.Some? ==> |id.value| >= 1 && exists i: nat ::
              && MatchesAt(path, i)
              && (forall j: nat :: j < i ==> !MatchesAt(path, j))
              && IsMaximalRun(path, i + |ChatSegment|, id.value)
  {
    match FirstMatchFrom(path, 0)
    case None => None
    case Some(i) =>
      var start := i + |ChatSegment|;
      var k := IdRunLength(path, start);
      var run := path[start..start + k];
      assert IsMaximalRun(path, start, run);
      Some(run)
  }

  // ---------------------------------------------------------------------------
  // `extractMessages(conversation)`
  // ---------------------------------------------------------------------------

  /** One element of the API's `chat_messages`. */
  datatype ApiMessage = ApiMessage(sender: Option<string>, text: Option<string>, createdAt: Option<string>)

  /** The API's conversation object; `chatMessages` is `None` when the field is missing or null. */
  datatype ApiConversation = ApiConversation(name: Option<string>, chatMessages: Option<seq<ApiMessage>>)

  datatype ExportMessage = ExportMessage(role: Role, content: string, timestamp: Option<string>)

  function ToExportMessage(m: ApiMessage): ExportMessage {
    ExportMessage(if m.sender == Some("human") then User else Assistant, m.text.GetOr(""), m.createdAt)
  }

  function ToExportMessages(ms: seq<ApiMessage>): (r: seq<ExportMessage>)
    ensures |r| == |ms|
    ensures forall i :: 0 <= i < |ms| ==>
              && (r[i].role == User <==> ms[i].sender == Some("human"))
              && r[i].content == (if ms[i].text.Some? then ms[i].text.value else "")
              && r[i].timestamp == ms[i].createdAt
  {
    if ms == [] then [] else [ToExportMessage(ms[0])] + ToExportMessages(ms[1..])
  }

  /**
   * The role and text of every API message, in order: a message is the user's
   * exactly when its sender is "human", and a missing text becomes empty. A
   * missing conversation or message list gives no messages.
   */
  function ExtractMessages(conversation: Option<ApiConversation>): (r: seq<ExportMessage>)
    ensures conversation.None? || conversation.value.chatMessages.None? ==> r == []
    ensures conversation.Some? && conversation.value.chatMessages.Some? ==>
              var ms := conversation.value.chatMessages.value;
              && |r| == |ms|
              && forall i :: 0 <= i < |ms| ==>
                   && (r[i].role == User <==> ms[i].sender == Some("human"))
                   && r[i].content == (if ms[i].text.Some? then ms[i].text.value else "")
  {
    match conversation
    case None => []
    case Some(c) =>
      match c.chatMessages
      case None => []
      case Some(ms) => ToExportMessages(ms)
  }

  // ---------------------------------------------------------------------------
  // `convertToMarkdown(messages, conversationName)`
  // ---------------------------------------------------------------------------

  const ClaudeSuffix := " - Claude"
  const DefaultTitle := "Claude Conversation"

  /** JavaScript truthiness of an optional string: present and not empty. */
  predicate Truthy(s: Option<string>) {
    s.Some? && s.value != ""
  }

  /** The page title with its first " - Claude" removed and white space trimmed. */
  function PageTitleStem(pageTitle: string): string {
    Trim(ReplaceFirst(pageTitle, ClaudeSuffix, ""))
  }

  /** `conversationName || document.title.replace(' - Claude', '').trim() || 'Claude Conversation'` */
  function MarkdownTitle(name: Option<string>, pageTitle: string): (title: string)
    ensures title != ""
    ensures Truthy(name) ==> title == name.value
    ensures !Truthy(name) ==> (title == DefaultTitle <==> PageTitleStem(pageTitle) == "" || PageTitleStem(pageTitle) == DefaultTitle)
    ensures !Truthy(name) && PageTitleStem(pageTitle) != "" ==> title == PageTitleStem(pageTitle)
    ensures !Truthy(name) && PageTitleStem(pageTitle) == "" ==> title == DefaultTitle
  {
    if Truthy(name) then name.value
    else if PageTitleStem(pageTitle) != "" then PageTitleStem(pageTitle)
    else DefaultTitle
  }

  /**
   * A page titled "X - Claude" exports as "X" when the conversation has no name,
   * X is trimmed and not empty, and X itself holds no " - Claude".
   */
  lemma TitleFromPageTitle(x: string)
    requires x != "" && IsTrimmed(x)
    requires forall j: nat :: j < |x| ==> !OccursAt(x + ClaudeSuffix, ClaudeSuffix, j)
    ensures MarkdownTitle(None, x + ClaudeSuffix) == x
  {
    var s := x + ClaudeSuffix;
    assert OccursAt(s, ClaudeSuffix, |x|) by { assert s[|x|..|x| + |ClaudeSuffix|] == ClaudeSuffix; }
    ReplaceFirstAtLeftmost(s, ClaudeSuffix, "", |x|);
    assert ReplaceFirst(s, ClaudeSuffix, "") == x by {
      assert s[..|x|] == x && s[|x| + |ClaudeSuffix|..] == [];
    }
    TrimOfTrimmed(x);
  }

  lemma TrimOfTrimmed(x: string)
    requires IsTrimmed(x)
    ensures Trim(x) == x
  {
    if x != [] {
      assert LeadingSpaces(x) == 0;
      assert TrailingSpaces(x) == 0;
      assert x[0..|x|] == x;
    }
  }

  /** The role labels exactly as the source file spells them: an emoji whose UTF-8 bytes were decoded as Windows-1252. */
  const UserLabel := "\U{00F0}\U{0178}\U{2018}\U{00A4} **User**"
  const ClaudeLabel := "\U{00F0}\U{0178}\U{00A4}\U{2013} **Claude**"

  function RoleLabel(role: Role): string {
    if role == User then UserLabel else ClaudeLabel
  }

  const Separator := "---\n\n"

  /** The heading block: title, export date and time, message count, and a rule. */
  function MarkdownHeader(title: string, date: string, time: string, count: nat): string {
    "# " + title + HeaderDetails(date, time, count)
  }

  /** The header after the title line's text: export date and time, message count, and a rule. */
  function HeaderDetails(date: string, time: string, count: nat): string {
    ExportedLine(date, time) + CountLine(count) + "\n" + Separator
  }

  function ExportedLine(date: string, time: string): string {
    "\n\n**Exported:** " + date + " at " + time + "\n"
  }

  function CountLine(count: nat): string {
    "**Messages:** " + NatToString(count) + "\n"
  }

  /** One message's subsection. */
  function Section(m: ExportMessage): string {
    "### " + RoleLabel(m.role) + "\n\n" + m.content + "\n\n"
  }

  /** The sections of `ms` in order, with a separator between each two and none after the last. */
  function JoinSections(ms: seq<ExportMessage>): string {
    if |ms| == 0 then ""
    else if |ms| == 1 then Section(ms[0])
    else Section(ms[0]) + Separator + JoinSections(ms[1..])
  }

  function MarkdownDocument(messages: seq<ExportMessage>, name: Option<string>, pageTitle: string, date: string, time: string): string {
    MarkdownHeader(MarkdownTitle(name, pageTitle), date, time, |messages|) + JoinSections(messages)
  }

  /** Appending a message adds a separator (unless it is the first) and then its section. */
  lemma {:induction false} JoinSectionsSnoc(ms: seq<ExportMessage>, m: ExportMessage)
    ensures JoinSections(ms + [m]) == JoinSections(ms) + (if ms == [] then "" else Separator) + Section(m)
  {
    if |ms| == 0 {
      assert ms + [m] == [m];
    } else if |ms| == 1 {
      assert (ms + [m])[1..] == [m];
    } else {
      var rest := ms[1..];
      assert (ms + [m])[0] == ms[0] && (ms + [m])[1..] == rest + [m];
      assert JoinSections(ms + [m]) == Section(ms[0]) + Separator + JoinSections(rest + [m]);
      JoinSectionsSnoc(rest, m);
      AppendAssoc(Section(ms[0]) + Separator, JoinSections(rest), Separator + Section(m));
      AppendAssoc(JoinSections(rest), Separator, Section(m));
      AppendAssoc(JoinSections(ms), Separator, Section(m));
    }
  }

  function SectionsLength(ms: seq<ExportMessage>): nat {
    if ms == [] then 0 else |Section(ms[0])| + SectionsLength(ms[1..])
  }

  /** The body is the sections plus exactly n - 1 separators, for n > 0 messages. */
  lemma {:induction false} JoinSectionsLength(ms: seq<ExportMessage>)
    requires |ms| > 0
    ensures |JoinSections(ms)| == SectionsLength(ms) + (|ms| - 1) * |Separator|
  {
    if |ms| > 1 {
      JoinSectionsLength(ms[1..]);
    }
  }

  /** The body never ends in a separator: its last part is the last message's section. */
  lemma LastSectionEndsBody(ms: seq<ExportMessage>)
    requires |ms| > 0
    ensures EndsWith(JoinSections(ms), Section(ms[|ms| - 1]))
  {
    var init, last := ms[..|ms| - 1], ms[|ms| - 1];
    TakeSnoc(ms, |ms| - 1);
    JoinSectionsSnoc(init, last);
    EndsWithAppend(JoinSections(init) + (if init == [] then "" else Separator), Section(last));
  }

  lemma EndsWithAppend(front: string, tail: string)
    ensures EndsWith(front + tail, tail)
  {
    assert (front + tail)[|front|..] == tail;
  }

  lemma Regroup(header: string, body: string, gap: string, section: string, after: string)
    ensures (header + body + gap) + section + after == header + (body + gap + section) + after
  {
  }

  /** The text after `markdown` once message `index` is appended: its section, then a separator unless it is the last. */
  lemma AppendStep(ms: seq<ExportMessage>, index: nat, header: string, markdown: string)
    requires index < |ms|
    requires markdown == header + JoinSections(ms[..index]) + (if 0 < index then Separator else "")
    ensures markdown + Section(ms[index]) + (if index < |ms| - 1 then Separator else "")
            == header + JoinSections(ms[..index + 1]) + (if 0 < index + 1 < |ms| then Separator else "")
  {
    TakeSnoc(ms, index);
    JoinSectionsSnoc(ms[..index], ms[index]);
    Regroup(header, JoinSections(ms[..index]), if 0 < index then Separator else "", Section(ms[index]),
            if index < |ms| - 1 then Separator else "");
  }

  /** `convertToMarkdown`: the header, then `markdown +=` one section per message and a separator after all but the last. */
  method ConvertToMarkdown(messages: seq<ExportMessage>, name: Option<string>, pageTitle: string, date: string, time: string)
    returns (markdown: string)
    ensures markdown == MarkdownDocument(messages, name, pageTitle, date, time)
  {
    var title := MarkdownTitle(name, pageTitle);
    var header := MarkdownHeader(title, date, time, |messages|);
    markdown := header;
    var index := 0;
    while index < |messages|
      invariant 0 <= index <= |messages|
      invariant markdown == header + JoinSections(messages[..index]) + (if 0 < index < |messages| then Separator else "")
    {
      var msg := messages[index];
      var role := RoleLabel(msg.role);
      AppendStep(messages, index, header, markdown);
      var section := "### " + role + "\n\n" + msg.content + "\n\n";
      assert section == Section(msg);
      markdown := markdown + section;
      if index < |messages| - 1 {
        markdown := markdown + Separator;
      }
      index := index + 1;
    }
    assert messages[..index] == messages;
  }

  /** The document opens with the title as a level-one heading. */
  lemma MarkdownStartsWithTitle(messages: seq<ExportMessage>, name: Option<string>, pageTitle: string, date: string, time: string)
    ensures var title := MarkdownTitle(name, pageTitle);
            var doc := MarkdownDocument(messages, name, pageTitle, date, time);
            |doc| > 2 + |title| && doc[..2 + |title|] == "# " + title
  {
    var opening := "# " + MarkdownTitle(name, pageTitle);
    var rest := HeaderDetails(date, time, |messages|) + JoinSections(messages);
    AppendAssoc(opening, HeaderDetails(date, time, |messages|), JoinSections(messages));
    PrefixOfAppend(opening, rest);
  }

  lemma OccursBetween(a: string, p: string, b: string)
    ensures OccursAt(a + p + b, p, |a|)
  {
    assert (a + p + b)[|a|..|a| + |p|] == p;
  }

  /** The document with its count line cut out: what comes before it and what comes after it. */
  lemma CountLineSplit<T>(opening: seq<T>, exported: seq<T>, count: seq<T>, newline: seq<T>, rule: seq<T>, body: seq<T>)
    ensures (opening + (((exported + count) + newline) + rule)) + body
            == ((opening + exported) + count) + ((newline + rule) + body)
  {
  }

  /** The header states how many messages follow. */
  lemma MarkdownStatesCount(messages: seq<ExportMessage>, name: Option<string>, pageTitle: string, date: string, time: string)
    ensures exists i: nat :: OccursAt(MarkdownDocument(messages, name, pageTitle, date, time), CountLine(|messages|), i)
  {
    var opening := "# " + MarkdownTitle(name, pageTitle);
    var exported := ExportedLine(date, time);
    var count := CountLine(|messages|);
    var body := JoinSections(messages);
    var doc := MarkdownDocument(messages, name, pageTitle, date, time);
    assert doc == (opening + (((exported + count) + "\n") + Separator)) + body;
    CountLineSplit(opening, exported, count, "\n", Separator, body);
    OccursBetween(opening + exported, count, ("\n" + Separator) + body);
    assert OccursAt(doc, count, |opening + exported|);
  }

  // ---------------------------------------------------------------------------
  // File name: `claude_${name.replace(/[^a-z0-9]/gi, '_').toLowerCase()}_${Date.now()}.md`
  // ---------------------------------------------------------------------------

  predicate IsAsciiAlnum(c: char) {
    ('a' <= c <= 'z') || ('A' <= c <= 'Z') || ('0' <= c <= '9')
  }

  function AsciiLower(c: char): char {
    if 'A' <= c <= 'Z' then (c as int + 32) as char else c
  }

  function SlugChar(c: char): char {
    if IsAsciiAlnum(c) then AsciiLower(c) else '_'
  }

  /** The characters a slug is made of: lower-case letters, digits and underscores. */
  predicate IsSlugChar(c: char) {
    ('a' <= c <= 'z') || ('0' <= c <= '9') || c == '_'
  }

  /**
   * Every character other than an ASCII letter or digit becomes '_', and the
   * letters are lower-cased: one output character per input character.
   */
  function Slug(s: string): (r: string)
    ensures |r| == |s|
    ensures forall i :: 0 <= i < |s| ==> r[i] == SlugChar(s[i])
  {
    if s == [] then [] else [SlugChar(s[0])] + Slug(s[1..])
  }

  /** A slug holds only file-name-safe characters. */
  lemma SlugIsSafe(s: string)
    ensures forall c :: c in Slug(s) ==> IsSlugChar(c)
  {
    forall c | c in Slug(s) ensures IsSlugChar(c) {
      var i :| 0 <= i < |Slug(s)| && Slug(s)[i] == c;
      assert c == SlugChar(s[i]);
    }
  }

  /** Slugging a slug changes nothing. */
  lemma SlugIdempotent(s: string)
    ensures Slug(Slug(s)) == Slug(s)
  {
    var r := Slug(s);
    forall i | 0 <= i < |r| ensures Slug(r)[i] == r[i] {
      assert r[i] == SlugChar(s[i]);
    }
  }

  const DefaultName := "conversation"

  predicate IsFileNameChar(c: char) {
    IsSlugChar(c) || c == '.'
  }

  /** The download name: "claude_", the slug of the name (or "conversation"), "_", the time stamp, ".md". */
  function ExportFilename(name: Option<string>, now: nat): string {
    "claude_" + Slug(if Truthy(name) then name.value else DefaultName) + "_" + NatToString(now) + ".md"
  }

  /** The download name's shape: prefix, suffix, length, and only file-name characters. */
  lemma ExportFilenameShape(name: Option<string>, now: nat)
    ensures var f := ExportFilename(name, now);
            && |f| >= 12
            && f[..7] == "claude_" && EndsWith(f, ".md")
            && |f| == |(if Truthy(name) then name.value else DefaultName)| + |NatToString(now)| + 11
            && forall c :: c in f ==> IsFileNameChar(c)
  {
    var base := if Truthy(name) then name.value else DefaultName;
    var slug, stamp := Slug(base), NatToString(now);
    SlugIsSafe(base);
    FileNameSafe(slug, stamp);
    RegroupAfterFirst("claude_", slug, "_", stamp, ".md");
    PrefixOfAppend("claude_", slug + "_" + stamp + ".md");
    EndsWithAppend("claude_" + slug + "_" + stamp, ".md");
  }

  /** The pieces of a download name are made of file-name characters. */
  lemma FileNameSafe(slug: string, stamp: string)
    requires forall c :: c in slug ==> IsSlugChar(c)
    requires AllDigits(stamp)
    ensures forall c :: c in "claude_" + slug + "_" + stamp + ".md" ==> IsFileNameChar(c)
  {
    forall c | c in "claude_" + slug + "_" + stamp + ".md" ensures IsFileNameChar(c) {
      if c in stamp {
        var i :| 0 <= i < |stamp| && stamp[i] == c;
      }
    }
  }

  // ---------------------------------------------------------------------------
  // `exportConversation()`
  // ---------------------------------------------------------------------------

  datatype ExportPlan = ExportPlan(conversationId: string, conversation: ApiConversation, messages: seq<ExportMessage>)

  /**
   * The checks before anything is downloaded, in the source's order: export
   * switched off, no conversation in the path, the fetch gave nothing, no
   * messages. When they pass, there is at least one message to encode.
   */
  function ExportGuard(copyToClipboard: bool, path: string, fetched: Option<ApiConversation>): (r: Result<ExportPlan, string>)
    ensures r.Err? <==> !copyToClipboard || ConversationId(path).None? || fetched.None? || ExtractMessages(fetched) == []
    ensures !copyToClipboard ==> r == Err("Export is disabled in settings")
    ensures copyToClipboard && ConversationId(path).None? ==> r == Err("No conversation open")
    ensures copyToClipboard && ConversationId(path).Some? && fetched.None? ==> r == Err("Failed to fetch")
    ensures copyToClipboard && ConversationId(path).Some? && fetched.Some? && ExtractMessages(fetched) == [] ==> r == Err("No messages")
    ensures r.Ok? ==> |r.value.messages| > 0 && Some(r.value.conversationId) == ConversationId(path)
    ensures r.Ok? ==> Some(r.value.conversation) == fetched && r.value.messages == ExtractMessages(fetched)
  {
    if !copyToClipboard then Err("Export is disabled in settings")
    else match ConversationId(path)
      case None => Err("No conversation open")
      case Some(id) =>
        match fetched
        case None => Err("Failed to fetch")
        case Some(conversation) =>
          var messages := ExtractMessages(fetched);
          if |messages| == 0 then Err("No messages")
          else Ok(ExportPlan(id, conversation, messages))
  }

  datatype NoticeKind = Info | Success | Error

  datatype Notice = Notice(text: string, kind: NoticeKind)

  datatype Download = Download(filename: string, content: string)

  /** What `chrome.storage.local.get` gave for the settings key. */
  datatype StoredSettings = NothingStored | Stored(settings: MetricsStore.Settings) | ReadFailed

  /** The content script's fallback settings; they have no sound flag. */
  const ContentDefaults := MetricsStore.Settings(true, true, true, true, None)

  /** The settings `loadSettings()` leaves: the stored ones, else the defaults; a failed read keeps `current`. */
  function LoadedSettings(stored: StoredSettings, current: MetricsStore.Settings): MetricsStore.Settings {
    match stored
    case Stored(s) => s
    case NothingStored => ContentDefaults
    case ReadFailed => current
  }

  /**
   * The content script's shared state as the export path uses it: the settings
   * copy, the export buttons' disabled flag, and the effects it has had so far
   * (notices shown, files downloaded, clipboard writes, `LOG_EXPORT` messages sent).
   */
  class ExportSession {
    var settings: MetricsStore.Settings
    var buttonsDisabled: bool
    var notices: seq<Notice>
    var downloads: seq<Download>
    var clipboard: seq<string>
    var exportLogs: seq<MetricsStore.ExportEntry>

    constructor ()
      ensures settings == ContentDefaults && !buttonsDisabled
      ensures notices == [] && downloads == [] && clipboard == [] && exportLogs == []
    {
      settings := ContentDefaults;
      buttonsDisabled := false;
      notices, downloads, clipboard, exportLogs := [], [], [], [];
    }

    /** `loadSettings()`: the stored settings, else the defaults; a failed read keeps the current ones. */
    method LoadSettings(stored: StoredSettings) returns (result: MetricsStore.Settings)
      modifies this`settings
      ensures settings == LoadedSettings(stored, old(settings))
      ensures result == settings
    {
      match stored {
        case Stored(s) => settings := s;
        case NothingStored => settings := ContentDefaults;
        case ReadFailed =>
      }
      result := settings;
    }

    /** An aborted export: one error notice and nothing else. */
    method ReportFailure(message: string)
      modifies this`notices
      ensures notices == old(notices) + [Notice(message, Error)]
    {
      notices := notices + [Notice(message, Error)];
    }

    /** A completed export's effects: the download, the clipboard copy, the `LOG_EXPORT` message and the success notice. */
    method CompleteExport(p: ExportPlan, copyToClipboard: bool, pageTitle: string, date: string, time: string, now: nat)
      modifies this`downloads, this`clipboard, this`exportLogs, this`notices
      ensures var markdown := MarkdownDocument(p.messages, p.conversation.name, pageTitle, date, time);
              && downloads == old(downloads) + [Download(ExportFilename(p.conversation.name, now), markdown)]
              && clipboard == old(clipboard) + (if copyToClipboard then [markdown] else [])
              && exportLogs == old(exportLogs) + [MetricsStore.ExportEntry(p.conversationId, p.conversation.name, |p.messages|, now)]
              && notices == old(notices) + [Notice("Exported " + NatToString(|p.messages|) + " msgs", Success)]
    {
      var markdown := ConvertToMarkdown(p.messages, p.conversation.name, pageTitle, date, time);
      downloads := downloads + [Download(ExportFilename(p.conversation.name, now), markdown)];
      if copyToClipboard {
        clipboard := clipboard + [markdown];
      }
      exportLogs := exportLogs + [MetricsStore.ExportEntry(p.conversationId, p.conversation.name, |p.messages|, now)];
      notices := notices + [Notice("Exported " + NatToString(|p.messages|) + " msgs", Success)];
    }

    /**
     * The `try`/`finally` part of an export: the buttons are disabled, then a
     * late abort's notice or the completed export, then the buttons are enabled.
     */
    method Finish(plan: Result<ExportPlan, string>, pageTitle: string, date: string, time: string, now: nat)
      modifies this`buttonsDisabled, this`downloads, this`clipboard, this`exportLogs, this`notices
      ensures !buttonsDisabled
      ensures plan.Err? ==>
                && notices == old(notices) + [Notice(plan.error, Error)]
                && downloads == old(downloads) && clipboard == old(clipboard) && exportLogs == old(exportLogs)
      ensures plan.Ok? ==>
                var p := plan.value;
                var markdown := MarkdownDocument(p.messages, p.conversation.name, pageTitle, date, time);
                && downloads == old(downloads) + [Download(ExportFilename(p.conversation.name, now), markdown)]
                && clipboard == old(clipboard) + [markdown]
                && exportLogs == old(exportLogs) + [MetricsStore.ExportEntry(p.conversationId, p.conversation.name, |p.messages|, now)]
                && notices == old(notices) + [Notice("Exported " + NatToString(|p.messages|) + " msgs", Success)]
    {
      buttonsDisabled := true;
      if plan.Err? {
        ReportFailure(plan.error);
      } else {
        CompleteExport(plan.value, true, pageTitle, date, time, now);
      }
      buttonsDisabled := false;
    }

    /**
     * `exportConversation()`. Aborts with one error notice and no download in
     * the guard's four cases; the buttons are disabled only once a conversation
     * id was found and are enabled again on every path after that. On success:
     * one Markdown download, one clipboard write, one `LOG_EXPORT` message and a
     * success notice.
     */
    method ExportConversation(stored: StoredSettings, path: string, fetched: Option<ApiConversation>,
                              pageTitle: string, date: string, time: string, now: nat)
      returns (plan: Result<ExportPlan, string>)
      modifies this
      ensures plan == ExportGuard(settings.copyToClipboard, path, fetched)
      ensures settings == LoadedSettings(stored, old(settings))
      ensures !settings.copyToClipboard || ConversationId(path).None? ==> buttonsDisabled == old(buttonsDisabled)
      ensures settings.copyToClipboard && ConversationId(path).Some? ==> !buttonsDisabled
      ensures plan.Err? ==>
                && notices == old(notices) + [Notice(plan.error, Error)]
                && downloads == old(downloads) && clipboard == old(clipboard) && exportLogs == old(exportLogs)
      ensures plan.Ok? ==>
                var p := plan.value;
                var markdown := MarkdownDocument(p.messages, p.conversation.name, pageTitle, date, time);
                && downloads == old(downloads) + [Download(ExportFilename(p.conversation.name, now), markdown)]
                && clipboard == old(clipboard) + [markdown]
                && exportLogs == old(exportLogs) + [MetricsStore.ExportEntry(p.conversationId, p.conversation.name, |p.messages|, now)]
                && notices == old(notices) + [Notice("Exported " + NatToString(|p.messages|) + " msgs", Success)]
    {
      var current := LoadSettings(stored);
      plan := ExportGuard(current.copyToClipboard, path, fetched);
      if !current.copyToClipboard || ConversationId(path).None? {
        ReportFailure(plan.error);
        return;
      }
      Finish(plan, pageTitle, date, time, now);
    }
  }
}
