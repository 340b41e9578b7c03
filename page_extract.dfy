/**
 * The popup's side of the exporter (App/popup.js): which pages and typed URLs
 * it accepts, and `extractConversation`, the scrape that runs inside the chat
 * page. The page is given as records of the candidate elements each selector
 * would return, each with the text and the "mentions user" facts the code
 * reads from it; selector matching itself is not modelled.
 */
module PageExtract {
  import opened Wrappers
  import opened Text
  import opened Chat

  // ---------------------------------------------------------------------------
  // Page and URL checks
  // ---------------------------------------------------------------------------

  /** A URL of one of the two chat sites. */
  predicate IsChatUrl(url: string) {
    Includes(url, "chat.openai.com") || Includes(url, "chatgpt.com") || Includes(url, "claude.ai")
  }

  /** The popup's state for the active tab: whether "download current" is enabled, and the status line. */
  datatype PageCheck = PageCheck(downloadEnabled: bool, status: string, isError: bool)

  function CheckActiveTab(tabUrl: string): (r: PageCheck)
    ensures r.downloadEnabled <==> IsChatUrl(tabUrl)
    ensures r.isError <==> !r.downloadEnabled
    ensures r.status == (if r.downloadEnabled then "Ready to export" else "Not on a chat page")
  {
    if !IsChatUrl(tabUrl) then PageCheck(false, "Not on a chat page", true)
    else PageCheck(true, "Ready to export", false)
  }

  const EmptyUrlMessage := "Please enter a URL"
  const InvalidUrlMessage := "Invalid URL (must be ChatGPT or Claude)"

  /**
   * The typed URL is trimmed; an empty result is refused before the domain is
   * looked at, and a URL of neither chat site is refused next.
   */
  function ValidateUrlInput(input: string): (r: Result<string, string>)
    ensures r == Err(EmptyUrlMessage) <==> AllSpace(input)
    ensures r == Err(InvalidUrlMessage) <==> !AllSpace(input) && !IsChatUrl(Trim(input))
    ensures r.Ok? <==> !AllSpace(input) && IsChatUrl(Trim(input))
    ensures r.Ok? ==> r.value == Trim(input) && r.value != "" && IsTrimmed(r.value)
  {
    var url := Trim(input);
    if url == "" then Err(EmptyUrlMessage)
    else if !IsChatUrl(url) then Err(InvalidUrlMessage)
    else Ok(url)
  }

  /** An accepted URL is accepted again unchanged. */
  lemma ValidateUrlStable(input: string)
    requires ValidateUrlInput(input).Ok?
    ensures ValidateUrlInput(ValidateUrlInput(input).value) == ValidateUrlInput(input)
  {
    TrimIdempotent(input);
  }

  // ---------------------------------------------------------------------------
  // Platform
  // ---------------------------------------------------------------------------

  datatype Platform = ChatGPT | Claude | NoPlatform

  function PlatformName(p: Platform): string {
    match p
    case ChatGPT => "ChatGPT"
    case Claude => "Claude"
    case NoPlatform => ""
  }

  /** The platform chosen from the page's host name; ChatGPT's test comes first. */
  function DetectPlatform(hostname: string): (p: Platform)
    ensures p == ChatGPT <==> Includes(hostname, "openai.com") || Includes(hostname, "chatgpt.com")
    ensures p == Claude <==> !Includes(hostname, "openai.com") && !Includes(hostname, "chatgpt.com") && Includes(hostname, "claude.ai")
    ensures p == NoPlatform <==> !Includes(hostname, "openai.com") && !Includes(hostname, "chatgpt.com") && !Includes(hostname, "claude.ai")
  {
    if Includes(hostname, "openai.com") || Includes(hostname, "chatgpt.com") then ChatGPT
    else if Includes(hostname, "claude.ai") then Claude
    else NoPlatform
  }

  /** A string that holds `big` holds every piece of it. */
  lemma IncludesPart(s: string, big: string, k: nat, small: string)
    requires Includes(s, big)
    requires k + |small| <= |big| && big[k..k + |small|] == small
    ensures Includes(s, small)
  {
    var i := IndexOf(s, big).value;
    assert s[i + k..i + k + |small|] == big[k..k + |small|];
    assert OccursAt(s, small, i + k);
    IncludesIff(s, small);
  }

  /** Every host the popup accepts as a chat page is one the scrape recognises. */
  lemma ChatHostsHavePlatform(hostname: string)
    requires IsChatUrl(hostname)
    ensures DetectPlatform(hostname) != NoPlatform
  {
    if Includes(hostname, "chat.openai.com") {
      IncludesPart(hostname, "chat.openai.com", 5, "openai.com");
    }
  }

  // ---------------------------------------------------------------------------
  // Candidates and their screens
  // ---------------------------------------------------------------------------

  /** An element's `innerText` and `textContent`. */
  datatype Node = Node(innerText: string, textContent: string)

  /** `el.innerText || el.textContent`. */
  function NodeText(n: Node): string {
    if n.innerText != "" then n.innerText else n.textContent
  }

  datatype Message = Message(role: Role, content: string)

  /** A message whose text is trimmed and longer than `minLength` characters. */
  predicate Substantial(m: Message, minLength: nat) {
    IsTrimmed(m.content) && |m.content| > minLength
  }

  /** ChatGPT, first method: an element with `data-message-author-role` and its Markdown child, if any. */
  datatype AuthoredElement = AuthoredElement(authorRole: string, content: Option<Node>)

  /** ChatGPT, second method: an `article`, and whether its markup or a user-authored descendant mentions the user. */
  datatype Article = Article(node: Node, markupMentionsUser: bool, hasUserAuthoredDescendant: bool)

  /** ChatGPT, third method: a `div` inside the main container. */
  datatype Div = Div(innerText: string, hasChildDiv: bool, markupMentionsUser: bool)

  /** Claude, first method: an element whose class has "font-" or whose data-test has "message". */
  datatype ClaudeElement = ClaudeElement(node: Node, classMentionsUser: bool, markupMentionsUser: bool, insideUserElement: bool)

  /** Claude, second method: a paragraph or message `div` inside `main`. */
  datatype Paragraph = Paragraph(node: Node, markupMentionsUser: bool, insideUserElement: bool)

  function ScreenAuthored(e: AuthoredElement): (r: Option<Message>)
    ensures r.Some? <==> e.content.Some? && !AllSpace(NodeText(e.content.value))
    ensures r.Some? ==> Substantial(r.value, 0) && r.value.content == Trim(NodeText(e.content.value))
    ensures r.Some? ==> (r.value.role == User <==> e.authorRole == "user")
  {
    match e.content
    case None => None
    case Some(node) =>
      var text := NodeText(node);
      if text != "" && Trim(text) != "" then Some(Message(if e.authorRole == "user" then User else Assistant, Trim(text)))
      else None
  }

  function ScreenArticle(a: Article): (r: Option<Message>)
    ensures r.Some? <==> |Trim(NodeText(a.node))| > 10
    ensures r.Some? ==> Substantial(r.value, 10) && r.value.content == Trim(NodeText(a.node))
    ensures r.Some? ==> (r.value.role == User <==> a.markupMentionsUser || a.hasUserAuthoredDescendant)
  {
    var text := NodeText(a.node);
    if text != "" && Trim(text) != "" && |Trim(text)| > 10 then
      Some(Message(if a.markupMentionsUser || a.hasUserAuthoredDescendant then User else Assistant, Trim(text)))
    else None
  }

  function ScreenDiv(d: Div): (r: Option<Message>)
    ensures r.Some? <==> |Trim(d.innerText)| > 20 && !d.hasChildDiv
    ensures r.Some? ==> Substantial(r.value, 20) && r.value.content == Trim(d.innerText)
    ensures r.Some? ==> (r.value.role == User <==> d.markupMentionsUser)
  {
    if d.innerText != "" && |Trim(d.innerText)| > 20 && !d.hasChildDiv then
      Some(Message(if d.markupMentionsUser then User else Assistant, Trim(d.innerText)))
    else None
  }

  function ScreenClaudeElement(e: ClaudeElement): (r: Option<Message>)
    ensures r.Some? <==> |Trim(NodeText(e.node))| > 10
    ensures r.Some? ==> Substantial(r.value, 10) && r.value.content == Trim(NodeText(e.node))
    ensures r.Some? ==> (r.value.role == User <==> e.classMentionsUser || e.markupMentionsUser || e.insideUserElement)
  {
    var text := NodeText(e.node);
    if text != "" && |Trim(text)| > 10 then
      Some(Message(if e.classMentionsUser || e.markupMentionsUser || e.insideUserElement then User else Assistant, Trim(text)))
    else None
  }

  function ScreenParagraph(p: Paragraph): (r: Option<Message>)
    ensures r.Some? <==> |Trim(NodeText(p.node))| > 20
    ensures r.Some? ==> Substantial(r.value, 20) && r.value.content == Trim(NodeText(p.node))
    ensures r.Some? ==> (r.value.role == User <==> p.markupMentionsUser || p.insideUserElement)
  {
    var text := NodeText(p.node);
    if text != "" && |Trim(text)| > 20 then
      Some(Message(if p.markupMentionsUser || p.insideUserElement then User else Assistant, Trim(text)))
    else None
  }

  // ---------------------------------------------------------------------------
  // Screening and de-duplication, for any method
  // ---------------------------------------------------------------------------

  /** The messages the screen lets through, in candidate order. */
  function Screened<T>(screen: T -> Option<Message>, cands: seq<T>): (r: seq<Message>)
    ensures |r| <= |cands|
  {
    if cands == [] then []
    else
      var prev := Screened(screen, cands[..|cands| - 1]);
      match screen(cands[|cands| - 1])
      case None => prev
      case Some(m) => prev + [m]
  }

  /** What a screen promises of each message it lets through holds of every screened message. */
  lemma {:induction false} ScreenedAll<T>(screen: T -> Option<Message>, cands: seq<T>, P: Message -> bool)
    requires forall c :: screen(c).Some? ==> P(screen(c).value)
    ensures forall i :: 0 <= i < |Screened(screen, cands)| ==> P(Screened(screen, cands)[i])
  {
    if cands != [] {
      ScreenedAll(screen, cands[..|cands| - 1], P);
    }
  }

  /** No message is lost by screening: if some candidate passes, something is screened in. */
  lemma {:induction false} ScreenedNonEmpty<T>(screen: T -> Option<Message>, cands: seq<T>, k: nat)
    requires k < |cands| && screen(cands[k]).Some?
    ensures Screened(screen, cands) != []
  {
    if k < |cands| - 1 {
      ScreenedNonEmpty(screen, cands[..|cands| - 1], k);
    }
  }

  /** How a method treats a message that looks like the one appended just before it. */
  datatype DedupRule = KeepAll | SkipSameContent | SkipSameRoleAndContent

  /** `m` counts as a repeat of the last appended message `last`. */
  predicate Repeats(rule: DedupRule, last: Message, m: Message) {
    match rule
    case KeepAll => false
    case SkipSameContent => last.content == m.content
    case SkipSameRoleAndContent => last.role == m.role && last.content == m.content
  }

  /** `prev` with `x` pushed, unless `x` repeats the last message of `prev`. */
  function Pushed(rule: DedupRule, prev: seq<Message>, x: Message): seq<Message> {
    if prev != [] && Repeats(rule, prev[|prev| - 1], x) then prev else prev + [x]
  }

  /** `xs` appended one by one, each skipped when it repeats the last message appended so far. */
  function Dedup(rule: DedupRule, xs: seq<Message>): (r: seq<Message>)
    ensures |r| <= |xs|
    ensures r == [] <==> xs == []
    ensures forall i :: 0 <= i < |r| ==> r[i] in xs
  {
    if xs == [] then []
    else
      Pushed(rule, Dedup(rule, xs[..|xs| - 1]), xs[|xs| - 1])
  }

  /** A method that does not de-duplicate keeps every screened message. */
  lemma {:induction false} DedupKeepAll(xs: seq<Message>)
    ensures Dedup(KeepAll, xs) == xs
  {
    if xs != [] {
      var init, x := xs[..|xs| - 1], xs[|xs| - 1];
      DedupKeepAll(init);
      assert Dedup(KeepAll, xs) == Pushed(KeepAll, init, x);
      assert init + [x] == xs;
    }
  }

  /** No message of `ms` repeats the one just before it. */
  predicate NoAdjacentRepeats(rule: DedupRule, ms: seq<Message>) {
    forall i :: 0 < i < |ms| ==> !Repeats(rule, ms[i - 1], ms[i])
  }

  /** No two adjacent messages of the result repeat each other. */
  lemma {:induction false} DedupNoAdjacentRepeats(rule: DedupRule, xs: seq<Message>)
    ensures NoAdjacentRepeats(rule, Dedup(rule, xs))
  {
    if xs != [] {
      var prev := Dedup(rule, xs[..|xs| - 1]);
      var x := xs[|xs| - 1];
      DedupNoAdjacentRepeats(rule, xs[..|xs| - 1]);
      if !(prev != [] && Repeats(rule, prev[|prev| - 1], x)) {
        var r := prev + [x];
        assert Dedup(rule, xs) == r;
        forall i | 0 < i < |r| ensures !Repeats(rule, r[i - 1], r[i]) {
          if i < |prev| {
            assert r[i - 1] == prev[i - 1] && r[i] == prev[i];
          } else {
            assert r[i - 1] == prev[|prev| - 1] && r[i] == x;
            assert !Repeats(rule, prev[|prev| - 1], x);
          }
        }
      }
    }
  }

  /** The last message kept always repeats the last message offered (for the two skipping rules). */
  lemma DedupLastRepeatsLastInput(rule: DedupRule, xs: seq<Message>)
    requires rule != KeepAll && xs != []
    ensures Repeats(rule, Dedup(rule, xs)[|Dedup(rule, xs)| - 1], xs[|xs| - 1])
  {
  }

  /**
   * Skipping is decided by the candidate screened in just before: a message is
   * dropped exactly when it repeats its predecessor among the screened messages,
   * whether or not that predecessor was itself kept.
   */
  lemma DedupComparesWithPredecessor(rule: DedupRule, xs: seq<Message>, x: Message)
    requires rule != KeepAll && xs != []
    ensures Dedup(rule, xs + [x]) == if Repeats(rule, xs[|xs| - 1], x) then Dedup(rule, xs) else Dedup(rule, xs) + [x]
  {
    assert (xs + [x])[..|xs|] == xs;
    DedupLastRepeatsLastInput(rule, xs);
  }

  /** A sequence with no adjacent repeats comes through de-duplication unchanged. */
  lemma {:induction false} DedupOfClean(rule: DedupRule, ys: seq<Message>)
    requires NoAdjacentRepeats(rule, ys)
    ensures Dedup(rule, ys) == ys
  {
    if ys != [] {
      var init := ys[..|ys| - 1];
      var x := ys[|ys| - 1];
      assert NoAdjacentRepeats(rule, init) by {
        forall i | 0 < i < |init| ensures !Repeats(rule, init[i - 1], init[i]) {
          assert init[i - 1] == ys[i - 1] && init[i] == ys[i];
        }
      }
      DedupOfClean(rule, init);
      if init != [] {
        assert init[|init| - 1] == ys[|ys| - 2];
        assert !Repeats(rule, ys[|ys| - 2], ys[|ys| - 1]);
      }
      assert init + [x] == ys;
    }
  }

  /** De-duplicating twice is de-duplicating once. */
  lemma DedupIdempotent(rule: DedupRule, xs: seq<Message>)
    ensures Dedup(rule, Dedup(rule, xs)) == Dedup(rule, xs)
  {
    DedupNoAdjacentRepeats(rule, xs);
    DedupOfClean(rule, Dedup(rule, xs));
  }

  /** Screening one more candidate appends its message, if it has one. */
  lemma ScreenedTake<T>(screen: T -> Option<Message>, cands: seq<T>, i: nat)
    requires i < |cands|
    ensures Screened(screen, cands[..i + 1]) ==
              match screen(cands[i])
              case None => Screened(screen, cands[..i])
              case Some(m) => Screened(screen, cands[..i]) + [m]
  {
    assert cands[..i + 1][..i] == cands[..i];
  }

  /** De-duplicating one more message appends it unless it repeats the last one kept. */
  lemma DedupSnoc(rule: DedupRule, xs: seq<Message>, x: Message)
    ensures Dedup(rule, xs + [x]) == Pushed(rule, Dedup(rule, xs), x)
  {
    assert (xs + [x])[..|xs|] == xs;
  }

  /** The effect of one more candidate on the de-duplicated result. */
  lemma ScanStep<T>(cands: seq<T>, screen: T -> Option<Message>, rule: DedupRule, i: nat)
    requires i < |cands|
    ensures var before := Dedup(rule, Screened(screen, cands[..i]));
            Dedup(rule, Screened(screen, cands[..i + 1])) ==
              if screen(cands[i]).Some? then Pushed(rule, before, screen(cands[i]).value) else before
  {
    ScreenedTake(screen, cands, i);
    if screen(cands[i]).Some? {
      DedupSnoc(rule, Screened(screen, cands[..i]), screen(cands[i]).value);
    }
  }

  /** The role of the last message pushed, as ChatGPT's third method keeps it in `lastRole`. */
  function LastRole(messages: seq<Message>): Option<Role> {
    if messages == [] then None else Some(messages[|messages| - 1].role)
  }

  /**
   * The body of a method's `forEach` callback for a candidate that passed its
   * screen: push `m` unless the rule finds it repeats the last message pushed.
   */
  method Push(rule: DedupRule, messages: seq<Message>, lastRole: Option<Role>, m: Message)
    returns (messages': seq<Message>, lastRole': Option<Role>)
    requires lastRole == LastRole(messages)
    ensures messages' == Pushed(rule, messages, m)
    ensures lastRole' == LastRole(messages')
  {
    var skip := false;
    if rule == SkipSameContent {
      skip := messages != [] && messages[|messages| - 1].content == m.content;
    } else if rule == SkipSameRoleAndContent {
      skip := lastRole == Some(m.role) && messages != [] && messages[|messages| - 1].content == m.content;
    }
    messages', lastRole' := messages, lastRole;
    if !skip {
      messages' := messages + [m];
      lastRole' := Some(m.role);
    }
  }

  /**
   * One method's `forEach` loop: screen each candidate, and push the message
   * unless the rule finds it repeats the last one pushed.
   */
  method Scan<T>(cands: seq<T>, screen: T -> Option<Message>, rule: DedupRule) returns (messages: seq<Message>)
    ensures messages == Dedup(rule, Screened(screen, cands))
  {
    messages := [];
    var lastRole: Option<Role> := None;
    var i := 0;
    while i < |cands|
      invariant 0 <= i <= |cands|
      invariant messages == Dedup(rule, Screened(screen, cands[..i]))
      invariant lastRole == LastRole(messages)
    {
      ScanStep(cands, screen, rule, i);
      var next := screen(cands[i]);
      if next.Some? {
        messages, lastRole := Push(rule, messages, lastRole, next.value);
      }
      i := i + 1;
    }
    assert cands[..i] == cands;
  }

  // ---------------------------------------------------------------------------
  // The cascade
  // ---------------------------------------------------------------------------

  /**
   * What the scrape can see of a page: its host name and title, and the
   * candidate elements each method's selector returns. `None` for a container
   * that is not on the page.
   */
  datatype Page = Page(
    hostname: string,
    documentTitle: string,
    titleElement: Option<string>,
    authored: seq<AuthoredElement>,
    articles: seq<Article>,
    mainContainer: Option<seq<Div>>,
    claudeElements: seq<ClaudeElement>,
    conversationArea: Option<seq<Paragraph>>,
    mainText: Option<string>)

  function ChatGptByRole(page: Page): seq<Message> {
    Dedup(KeepAll, Screened(ScreenAuthored, page.authored))
  }

  function ChatGptByArticle(page: Page): seq<Message> {
    Dedup(KeepAll, Screened(ScreenArticle, page.articles))
  }

  function ChatGptByLeafDiv(page: Page): seq<Message> {
    match page.mainContainer
    case None => []
    case Some(divs) => Dedup(SkipSameRoleAndContent, Screened(ScreenDiv, divs))
  }

  function ClaudeByElement(page: Page): seq<Message> {
    Dedup(SkipSameContent, Screened(ScreenClaudeElement, page.claudeElements))
  }

  function ClaudeByParagraph(page: Page): seq<Message> {
    match page.conversationArea
    case None => []
    case Some(ps) => Dedup(SkipSameContent, Screened(ScreenParagraph, ps))
  }

  /** The last resort: all of `main`'s text, untrimmed, as one assistant message. */
  function ClaudeWholeMain(page: Page): (r: seq<Message>)
    ensures |r| <= 1
    ensures r != [] <==> page.mainText.Some? && page.mainText.value != ""
    ensures r != [] ==> r[0] == Message(Assistant, page.mainText.value)
  {
    match page.mainText
    case Some(text) => if text != "" then [Message(Assistant, text)] else []
    case None => []
  }

  /** The three methods of a platform, in the order they are tried. */
  function Methods(platform: Platform, page: Page): seq<seq<Message>> {
    match platform
    case ChatGPT => [ChatGptByRole(page), ChatGptByArticle(page), ChatGptByLeafDiv(page)]
    case Claude => [ClaudeByElement(page), ClaudeByParagraph(page), ClaudeWholeMain(page)]
    case NoPlatform => []
  }

  /** The position of the first method that finds anything. */
  function FirstFoundIndex(results: seq<seq<Message>>): (k: Option<nat>)
    ensures k.None? <==> forall j :: 0 <= j < |results| ==> results[j] == []
    ensures k.Some? ==> k.value < |results| && results[k.value] != [] && forall j :: 0 <= j < k.value ==> results[j] == []
  {
    if results == [] then None
    else if results[0] != [] then Some(0)
    else match FirstFoundIndex(results[1..])
      case None => None
      case Some(k) => Some(k + 1)
  }

  /** The result of the first method that finds anything, or nothing. */
  function FirstFound(results: seq<seq<Message>>): seq<Message> {
    match FirstFoundIndex(results)
    case None => []
    case Some(k) => results[k]
  }

  lemma FirstFoundOfThree(a: seq<Message>, b: seq<Message>, c: seq<Message>)
    ensures FirstFound([a, b, c]) == if a != [] then a else if b != [] then b else c
  {
    var rs := [a, b, c];
    if a == [] {
      assert rs[1..] == [b, c];
      if b == [] {
        assert rs[1..][1..] == [c];
        assert [c][1..] == [];
        if c == [] {
          assert FirstFoundIndex(rs) == None;
        } else {
          assert FirstFoundIndex([c]) == Some(0);
          assert FirstFoundIndex([b, c]) == Some(1);
          assert FirstFoundIndex(rs) == Some(2);
        }
      } else {
        assert FirstFoundIndex(rs) == Some(1);
      }
    }
  }

  function ExtractedMessages(page: Page): seq<Message> {
    FirstFound(Methods(DetectPlatform(page.hostname), page))
  }

  /** ChatGPT: the `title` element's text when there is one; Claude: `document.title`, unless empty. */
  function ExtractedTitle(page: Page): (title: string)
    ensures DetectPlatform(page.hostname) == NoPlatform ==> title == ""
    ensures DetectPlatform(page.hostname) == ChatGPT && page.titleElement.None? ==> title == "ChatGPT Conversation"
    ensures DetectPlatform(page.hostname) == ChatGPT && page.titleElement.Some? ==> title == page.titleElement.value
    ensures DetectPlatform(page.hostname) == Claude && page.documentTitle != "" ==> title == page.documentTitle
    ensures DetectPlatform(page.hostname) == Claude && page.documentTitle == "" ==> title == "Claude Conversation"
  {
    match DetectPlatform(page.hostname)
    case ChatGPT => if page.titleElement.Some? then page.titleElement.value else "ChatGPT Conversation"
    case Claude => if page.documentTitle != "" then page.documentTitle else "Claude Conversation"
    case NoPlatform => ""
  }

  /** What `extractConversation` returns to the popup. */
  datatype ChatData = ChatData(platform: string, title: string, messages: seq<Message>)

  /**
   * A cascade over `methods` that ran the first `run` of them stopped correctly:
   * every method before the last one run found nothing, and stopping before the
   * end means the last one run found `messages`.
   */
  predicate StoppedAt(methods: seq<seq<Message>>, run: nat, messages: seq<Message>) {
    && run <= |methods|
    && (forall j :: 0 <= j < run - 1 ==> methods[j] == [])
    && (0 < run < |methods| ==> messages != [] && messages == methods[run - 1])
  }

  /** Running methods `a`, `b`, `c` while nothing is found stops where the first non-empty result is. */
  lemma CascadeOfThree(a: seq<Message>, b: seq<Message>, c: seq<Message>, run: nat, messages: seq<Message>)
    requires 1 <= run <= 3
    requires run == 1 ==> a != [] && messages == a
    requires run == 2 ==> a == [] && b != [] && messages == b
    requires run == 3 ==> a == [] && b == [] && messages == c
    ensures messages == FirstFound([a, b, c])
    ensures StoppedAt([a, b, c], run, messages)
  {
    FirstFoundOfThree(a, b, c);
  }

  /** ChatGPT's three methods, each run only while nothing has been found. */
  method ExtractChatGpt(page: Page) returns (messages: seq<Message>, methodsRun: nat)
    ensures messages == FirstFound(Methods(ChatGPT, page))
    ensures 1 <= methodsRun <= 3
    ensures methodsRun >= 2 <==> ChatGptByRole(page) == []
    ensures methodsRun == 3 <==> ChatGptByRole(page) == [] && ChatGptByArticle(page) == []
    ensures StoppedAt(Methods(ChatGPT, page), methodsRun, messages)
  {
    messages := Scan(page.authored, ScreenAuthored, KeepAll);
    methodsRun := 1;
    if |messages| == 0 {
      messages := Scan(page.articles, ScreenArticle, KeepAll);
      methodsRun := 2;
    }
    if |messages| == 0 {
      if page.mainContainer.Some? {
        messages := Scan(page.mainContainer.value, ScreenDiv, SkipSameRoleAndContent);
      }
      methodsRun := 3;
    }
    CascadeOfThree(ChatGptByRole(page), ChatGptByArticle(page), ChatGptByLeafDiv(page), methodsRun, messages);
  }

  /** Claude's two scans and the last resort, each run only while nothing has been found. */
  method ExtractClaude(page: Page) returns (messages: seq<Message>, methodsRun: nat)
    ensures messages == FirstFound(Methods(Claude, page))
    ensures 1 <= methodsRun <= 3
    ensures methodsRun >= 2 <==> ClaudeByElement(page) == []
    ensures methodsRun == 3 <==> ClaudeByElement(page) == [] && ClaudeByParagraph(page) == []
    ensures StoppedAt(Methods(Claude, page), methodsRun, messages)
  {
    messages := Scan(page.claudeElements, ScreenClaudeElement, SkipSameContent);
    methodsRun := 1;
    if |messages| == 0 {
      if page.conversationArea.Some? {
        messages := Scan(page.conversationArea.value, ScreenParagraph, SkipSameContent);
      }
      methodsRun := 2;
    }
    if |messages| == 0 {
      if page.mainText.Some? {
        var allText := page.mainText.value;
        if allText != "" {
          messages := messages + [Message(Assistant, allText)];
        }
      }
      methodsRun := 3;
      assert messages == ClaudeWholeMain(page);
    }
    CascadeOfThree(ClaudeByElement(page), ClaudeByParagraph(page), ClaudeWholeMain(page), methodsRun, messages);
  }

  /**
   * `extractConversation()`: the platform's methods run in order, each only
   * while no messages have been found. `methodsRun` is how many ran.
   */
  method ExtractConversation(page: Page) returns (data: ChatData, methodsRun: nat)
    ensures data.platform == PlatformName(DetectPlatform(page.hostname))
    ensures data.title == ExtractedTitle(page)
    ensures data.messages == ExtractedMessages(page)
    ensures methodsRun == 0 <==> DetectPlatform(page.hostname) == NoPlatform
    ensures StoppedAt(Methods(DetectPlatform(page.hostname), page), methodsRun, data.messages)
  {
    var platform := DetectPlatform(page.hostname);
    var title := "";
    var messages: seq<Message> := [];
    methodsRun := 0;
    if platform == ChatGPT {
      title := if page.titleElement.Some? then page.titleElement.value else "ChatGPT Conversation";
      messages, methodsRun := ExtractChatGpt(page);
    } else if platform == Claude {
      title := if page.documentTitle != "" then page.documentTitle else "Claude Conversation";
      messages, methodsRun := ExtractClaude(page);
    }
    data := ChatData(PlatformName(platform), title, messages);
  }

  // ---------------------------------------------------------------------------
  // What the cascade guarantees
  // ---------------------------------------------------------------------------

  lemma ScreenedByRoleTrimmed(page: Page)
    ensures forall i :: 0 <= i < |ChatGptByRole(page)| ==> Substantial(ChatGptByRole(page)[i], 0)
  {
    var xs := Screened(ScreenAuthored, page.authored);
    ScreenedAll(ScreenAuthored, page.authored, m => Substantial(m, 0));
    DedupKeepAll(xs);
  }

  lemma ScreenedByArticleTrimmed(page: Page)
    ensures forall i :: 0 <= i < |ChatGptByArticle(page)| ==> Substantial(ChatGptByArticle(page)[i], 10)
  {
    var xs := Screened(ScreenArticle, page.articles);
    ScreenedAll(ScreenArticle, page.articles, m => Substantial(m, 10));
    DedupKeepAll(xs);
  }

  lemma ScreenedByLeafDivTrimmed(page: Page)
    ensures forall i :: 0 <= i < |ChatGptByLeafDiv(page)| ==> Substantial(ChatGptByLeafDiv(page)[i], 20)
  {
    if page.mainContainer.Some? {
      var xs := Screened(ScreenDiv, page.mainContainer.value);
      ScreenedAll(ScreenDiv, page.mainContainer.value, m => Substantial(m, 20));
      assert forall m :: m in xs ==> Substantial(m, 20);
    }
  }

  lemma ScreenedByElementTrimmed(page: Page)
    ensures forall i :: 0 <= i < |ClaudeByElement(page)| ==> Substantial(ClaudeByElement(page)[i], 10)
  {
    var xs := Screened(ScreenClaudeElement, page.claudeElements);
    ScreenedAll(ScreenClaudeElement, page.claudeElements, m => Substantial(m, 10));
    assert forall m :: m in xs ==> Substantial(m, 10);
  }

  lemma ScreenedByParagraphTrimmed(page: Page)
    ensures forall i :: 0 <= i < |ClaudeByParagraph(page)| ==> Substantial(ClaudeByParagraph(page)[i], 20)
  {
    if page.conversationArea.Some? {
      var xs := Screened(ScreenParagraph, page.conversationArea.value);
      ScreenedAll(ScreenParagraph, page.conversationArea.value, m => Substantial(m, 20));
      assert forall m :: m in xs ==> Substantial(m, 20);
    }
  }

  /**
   * Every ChatGPT message is trimmed and not empty. Every Claude message is
   * trimmed and over ten characters, unless it is the last resort's single
   * untrimmed copy of `main`'s text. Other hosts give no messages.
   */
  lemma ExtractedMessagesWellFormed(page: Page)
    ensures var msgs := ExtractedMessages(page);
            && (DetectPlatform(page.hostname) == NoPlatform ==> msgs == [])
            && (DetectPlatform(page.hostname) == ChatGPT ==> forall i :: 0 <= i < |msgs| ==> Substantial(msgs[i], 0))
            && (DetectPlatform(page.hostname) == Claude ==>
                  || msgs == ClaudeWholeMain(page)
                  || forall i :: 0 <= i < |msgs| ==> Substantial(msgs[i], 10))
  {
    match DetectPlatform(page.hostname)
    case NoPlatform =>
    case ChatGPT =>
      ScreenedByRoleTrimmed(page);
      ScreenedByArticleTrimmed(page);
      ScreenedByLeafDivTrimmed(page);
    case Claude =>
      ScreenedByElementTrimmed(page);
      ScreenedByParagraphTrimmed(page);
  }

  /** Claude's methods never put two messages with the same text side by side, except through the last resort. */
  lemma ClaudeNoAdjacentDuplicates(page: Page)
    requires DetectPlatform(page.hostname) == Claude
    ensures var msgs := ExtractedMessages(page);
            || msgs == ClaudeWholeMain(page)
            || forall i :: 0 < i < |msgs| ==> msgs[i - 1].content != msgs[i].content
  {
    FirstFoundOfThree(ClaudeByElement(page), ClaudeByParagraph(page), ClaudeWholeMain(page));
    if ClaudeByElement(page) != [] {
      DedupNoAdjacentRepeats(SkipSameContent, Screened(ScreenClaudeElement, page.claudeElements));
    } else if ClaudeByParagraph(page) != [] {
      DedupNoAdjacentRepeats(SkipSameContent, Screened(ScreenParagraph, page.conversationArea.value));
    }
  }

  /** The last resort runs only when both other Claude methods found nothing, and then yields at most one message. */
  lemma ClaudeLastResort(page: Page)
    requires DetectPlatform(page.hostname) == Claude
    requires ClaudeByElement(page) == [] && ClaudeByParagraph(page) == []
    ensures ExtractedMessages(page) == ClaudeWholeMain(page)
  {
    FirstFoundOfThree(ClaudeByElement(page), ClaudeByParagraph(page), ClaudeWholeMain(page));
  }

  /** A page with no platform, or none of whose methods finds anything, gives no messages. */
  lemma NothingFoundIff(page: Page)
    ensures ExtractedMessages(page) == [] <==>
              forall k :: 0 <= k < |Methods(DetectPlatform(page.hostname), page)| ==> Methods(DetectPlatform(page.hostname), page)[k] == []
  {
  }

  // ---------------------------------------------------------------------------
  // The download buttons' checks on what the scrape returned
  // ---------------------------------------------------------------------------

  const NoDataMessage := "Failed to extract conversation data"
  /** The two download buttons: the current tab, or a chat opened from a pasted URL. */
  datatype Button = CurrentPage | FromUrl

  /** "No messages found." followed by the advice each button gives. */
  function NoMessagesError(button: Button): string {
    match button
    case CurrentPage => "No messages found. Try scrolling through the conversation first."
    case FromUrl => "No messages found. The page may not have loaded properly."
  }

  /**
   * The scrape's result is refused when the script returned nothing or no
   * messages; the hint differs between the current-page and the URL button.
   */
  function CheckExtracted(result: Option<ChatData>, button: Button): (r: Result<ChatData, string>)
    ensures r.Ok? <==> result.Some? && result.value.messages != []
    ensures r.Ok? ==> r.value == result.value
    ensures result.None? ==> r == Err(NoDataMessage)
    ensures result.Some? && result.value.messages == [] && button == CurrentPage ==>
              r == Err("No messages found. Try scrolling through the conversation first.")
    ensures result.Some? && result.value.messages == [] && button == FromUrl ==>
              r == Err("No messages found. The page may not have loaded properly.")
  {
    match result
    case None => Err(NoDataMessage)
    case Some(data) => if |data.messages| == 0 then Err(NoMessagesError(button)) else Ok(data)
  }

  /** The status line after a download attempt. */
  function OutcomeStatus(outcome: Result<ChatData, string>): (status: string)
    ensures outcome.Ok? ==> status == "\U{2713} Downloaded " + NatToString(|outcome.value.messages|) + " messages!"
    ensures outcome.Err? ==> status == "\U{2717} Error: " + outcome.error
  {
    match outcome
    case Ok(data) => "\U{2713} Downloaded " + NatToString(|data.messages|) + " messages!"
    case Err(e) => "\U{2717} Error: " + e
  }
}
