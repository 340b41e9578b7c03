/**
 * `generatePDF` (App/popup.js): the vertical cursor that places the title,
 * the platform line, and each message's role header and wrapped lines, in
 * page units from the top, starting a new page when the cursor passes a
 * threshold. Line wrapping (jsPDF's `splitTextToSize`) is a parameter, and the
 * page height is a whole number.
 */
module PdfLayout {
  import opened Wrappers
  import opened Text
  import opened Chat
  import opened PageExtract
  import opened Seqs

  const Margin := 20
  const TitleAdvance := 10
  const MetaAdvance := 15
  const HeaderAdvance := 7
  const LineAdvance := 5
  const MessageGap := 10

  /**
   * What is drawn: the title, the platform and date line, a role header
   * (`message.role + ':'`, "User:" or "Assistant:"), or one wrapped line of a message.
   */
  datatype Item = TitleText(text: string) | MetaText(text: string) | RoleHeader(role: Role) | BodyLine(text: string)

  /** One `pdf.text` call: the page it lands on (counted from 1), its vertical position and what it draws. */
  datatype Draw = Draw(page: nat, y: int, item: Item)

  /** `chatData.title || 'Conversation Export'`. */
  function PdfTitle(title: string): (t: string)
    ensures t != ""
    ensures title != "" ==> t == title
    ensures title == "" ==> t == "Conversation Export"
  {
    if title != "" then title else "Conversation Export"
  }

  function MetaLine(platform: string, date: string): string {
    platform + " \U{2022} " + date
  }

  // ---------------------------------------------------------------------------
  // What is drawn, in order
  // ---------------------------------------------------------------------------

  function LineItems(lines: seq<string>): (r: seq<Item>)
    ensures |r| == |lines|
    ensures forall i :: 0 <= i < |lines| ==> r[i] == BodyLine(lines[i])
  {
    if lines == [] then [] else LineItems(lines[..|lines| - 1]) + [BodyLine(lines[|lines| - 1])]
  }

  /** A message's header followed by each of its wrapped lines. */
  function MessageItems(m: Message, wrap: string -> seq<string>): seq<Item> {
    [RoleHeader(m.role)] + LineItems(wrap(m.content))
  }

  function MessagesItems(ms: seq<Message>, wrap: string -> seq<string>): seq<Item> {
    if ms == [] then [] else MessagesItems(ms[..|ms| - 1], wrap) + MessageItems(ms[|ms| - 1], wrap)
  }

  /** Everything the document shows, in reading order. */
  function Content(data: ChatData, date: string, wrap: string -> seq<string>): seq<Item> {
    [TitleText(PdfTitle(data.title)), MetaText(MetaLine(data.platform, date))] + MessagesItems(data.messages, wrap)
  }

  /** Drawing message `i` after the first `i` extends the drawn content by that message. */
  lemma MessagesItemsStep(head: seq<Item>, ms: seq<Message>, i: nat, wrap: string -> seq<string>, before: seq<Item>, after: seq<Item>)
    requires i < |ms|
    requires before == head + MessagesItems(ms[..i], wrap)
    requires after == before + MessageItems(ms[i], wrap)
    ensures after == head + MessagesItems(ms[..i + 1], wrap)
  {
    assert ms[..i + 1][..i] == ms[..i];
  }

  /** The number of wrapped lines of all messages. */
  function TotalLines(ms: seq<Message>, wrap: string -> seq<string>): nat {
    if ms == [] then 0 else TotalLines(ms[..|ms| - 1], wrap) + |wrap(ms[|ms| - 1].content)|
  }

  /** The document has two heading items, one header per message, and one item per wrapped line. */
  lemma {:induction false} ContentSize(data: ChatData, date: string, wrap: string -> seq<string>)
    ensures |Content(data, date, wrap)| == 2 + |data.messages| + TotalLines(data.messages, wrap)
  {
    MessagesItemsSize(data.messages, wrap);
  }

  lemma {:induction false} MessagesItemsSize(ms: seq<Message>, wrap: string -> seq<string>)
    ensures |MessagesItems(ms, wrap)| == |ms| + TotalLines(ms, wrap)
  {
    if ms != [] {
      MessagesItemsSize(ms[..|ms| - 1], wrap);
    }
  }

  /** The items of a list of draws, in order. */
  function Items(draws: seq<Draw>): (r: seq<Item>)
    ensures |r| == |draws|
    ensures forall k :: 0 <= k < |draws| ==> r[k] == draws[k].item
  {
    seq(|draws|, k requires 0 <= k < |draws| => draws[k].item)
  }

  // ---------------------------------------------------------------------------
  // Where each item goes
  // ---------------------------------------------------------------------------

  /** How far the cursor moves after drawing `it`. */
  function Advance(it: Item): nat {
    match it
    case TitleText(_) => TitleAdvance
    case MetaText(_) => MetaAdvance
    case RoleHeader(_) => HeaderAdvance
    case BodyLine(_) => LineAdvance
  }

  /** The distance from `a` to `b` on one page: `a`'s advance, plus the gap after a message when `b` starts the next one. */
  function Spacing(a: Item, b: Item): nat {
    Advance(a) + if b.RoleHeader? && (a.RoleHeader? || a.BodyLine?) then MessageGap else 0
  }

  /** The lowest cursor position at which `b` still goes on the current page; headings never break. */
  function BreakLimit(b: Item, pageHeight: int): Option<int> {
    match b
    case RoleHeader(_) => Some(pageHeight - Margin - 20)
    case BodyLine(_) => Some(pageHeight - Margin - 10)
    case _ => None
  }

  /** `b` is placed correctly after `a`: below it on the same page, or at the top margin of the next page when past the limit. */
  predicate FollowsOn(a: Draw, b: Draw, pageHeight: int) {
    var next := a.y + Spacing(a.item, b.item);
    match BreakLimit(b.item, pageHeight)
    case Some(limit) =>
      if next > limit then b.page == a.page + 1 && b.y == Margin else b.page == a.page && b.y == next
    case None => b.page == a.page && b.y == next
  }

  predicate WellLaidOut(draws: seq<Draw>, pageHeight: int) {
    forall k :: 0 < k < |draws| ==> FollowsOn(draws[k - 1], draws[k], pageHeight)
  }

  lemma WellLaidOutSnoc(draws: seq<Draw>, d: Draw, pageHeight: int)
    requires WellLaidOut(draws, pageHeight) && draws != []
    requires FollowsOn(draws[|draws| - 1], d, pageHeight)
    ensures WellLaidOut(draws + [d], pageHeight)
  {
    var r := draws + [d];
    forall k | 0 < k < |r| ensures FollowsOn(r[k - 1], r[k], pageHeight) {
      if k < |draws| {
        assert r[k - 1] == draws[k - 1] && r[k] == draws[k];
      }
    }
  }

  /** The cursor before the next message once `d` is the last thing drawn. */
  function CursorAfter(d: Draw): int {
    d.y + Advance(d.item) + if d.item.RoleHeader? || d.item.BodyLine? then MessageGap else 0
  }

  // ---------------------------------------------------------------------------
  // The layout loop
  // ---------------------------------------------------------------------------

  lemma ItemsSnoc(draws: seq<Draw>, d: Draw)
    ensures Items(draws + [d]) == Items(draws) + [d.item]
  {
    assert (draws + [d])[..|draws|] == draws;
  }

  /**
   * The inner loop: each wrapped line of one message, drawn below the
   * previous item, or at the top of a new page once the cursor passes the
   * line limit. The cursor `y` and the page count are carried in and out.
   */
  method DrawLines(draws: seq<Draw>, pages: nat, y: int, lines: seq<string>, pageHeight: int)
    returns (draws': seq<Draw>, pages': nat, y': int)
    requires draws != [] && WellLaidOut(draws, pageHeight)
    requires pages == draws[|draws| - 1].page
    requires draws[|draws| - 1].item.RoleHeader? || draws[|draws| - 1].item.BodyLine?
    requires y == draws[|draws| - 1].y + Advance(draws[|draws| - 1].item)
    ensures |draws'| == |draws| + |lines| && draws'[..|draws|] == draws
    ensures Items(draws') == Items(draws) + LineItems(lines)
    ensures WellLaidOut(draws', pageHeight)
    ensures pages' == draws'[|draws'| - 1].page
    ensures draws'[|draws'| - 1].item.RoleHeader? || draws'[|draws'| - 1].item.BodyLine?
    ensures y' == draws'[|draws'| - 1].y + Advance(draws'[|draws'| - 1].item)
  {
    draws', pages', y' := draws, pages, y;
    var j := 0;
    while j < |lines|
      invariant 0 <= j <= |lines|
      invariant |draws'| == |draws| + j && draws'[..|draws|] == draws
      invariant Items(draws') == Items(draws) + LineItems(lines[..j])
      invariant WellLaidOut(draws', pageHeight)
      invariant pages' == draws'[|draws'| - 1].page
      invariant draws'[|draws'| - 1].item.RoleHeader? || draws'[|draws'| - 1].item.BodyLine?
      invariant y' == draws'[|draws'| - 1].y + Advance(draws'[|draws'| - 1].item)
    {
      var before := draws';
      draws', pages', y' := DrawLine(draws', pages', y', lines[j], pageHeight);
      TakeSnoc(lines, j);
      AppendAssoc(Items(draws), LineItems(lines[..j]), [BodyLine(lines[j])]);
      PrefixOfPrefix(draws', before, draws);
      j := j + 1;
    }
    assert lines[..j] == lines;
  }

  /** A message's role header: on a new page if the cursor is past the header limit. */
  method DrawHeader(draws: seq<Draw>, pages: nat, y: int, role: Role, pageHeight: int)
    returns (draws': seq<Draw>, pages': nat, y': int)
    requires draws != [] && WellLaidOut(draws, pageHeight)
    requires pages == draws[|draws| - 1].page
    requires y == CursorAfter(draws[|draws| - 1])
    ensures |draws'| == |draws| + 1 && draws'[..|draws|] == draws
    ensures Items(draws') == Items(draws) + [RoleHeader(role)]
    ensures WellLaidOut(draws', pageHeight)
    ensures pages' == draws'[|draws|].page && draws'[|draws|].item == RoleHeader(role)
    ensures y' == draws'[|draws|].y + Advance(draws'[|draws|].item)
  {
    pages', y' := pages, y;
    if y' > pageHeight - Margin - 20 {
      pages' := pages' + 1;
      y' := Margin;
    }
    var header := Draw(pages', y', RoleHeader(role));
    WellLaidOutSnoc(draws, header, pageHeight);
    ItemsSnoc(draws, header);
    PrefixOfAppend(draws, [header]);
    draws' := draws + [header];
    y' := y' + HeaderAdvance;
  }

  /** One wrapped line: on a new page if the cursor is past the line limit. */
  method DrawLine(draws: seq<Draw>, pages: nat, y: int, text: string, pageHeight: int)
    returns (draws': seq<Draw>, pages': nat, y': int)
    requires draws != [] && WellLaidOut(draws, pageHeight)
    requires pages == draws[|draws| - 1].page
    requires draws[|draws| - 1].item.RoleHeader? || draws[|draws| - 1].item.BodyLine?
    requires y == draws[|draws| - 1].y + Advance(draws[|draws| - 1].item)
    ensures |draws'| == |draws| + 1 && draws'[..|draws|] == draws
    ensures Items(draws') == Items(draws) + [BodyLine(text)]
    ensures WellLaidOut(draws', pageHeight)
    ensures pages' == draws'[|draws|].page && draws'[|draws|].item == BodyLine(text)
    ensures y' == draws'[|draws|].y + Advance(draws'[|draws|].item)
  {
    pages', y' := pages, y;
    if y' > pageHeight - Margin - 10 {
      pages' := pages' + 1;
      y' := Margin;
    }
    var line := Draw(pages', y', BodyLine(text));
    WellLaidOutSnoc(draws, line, pageHeight);
    ItemsSnoc(draws, line);
    PrefixOfAppend(draws, [line]);
    draws' := draws + [line];
    y' := y' + LineAdvance;
  }

  /**
   * One message: the role header, its wrapped lines, and the gap before the
   * next message.
   */
  method DrawMessage(draws: seq<Draw>, pages: nat, y: int, message: Message, wrap: string -> seq<string>, pageHeight: int)
    returns (draws': seq<Draw>, pages': nat, y': int)
    requires draws != [] && WellLaidOut(draws, pageHeight)
    requires pages == draws[|draws| - 1].page
    requires y == CursorAfter(draws[|draws| - 1])
    ensures |draws'| > |draws| && draws'[..|draws|] == draws
    ensures Items(draws') == Items(draws) + MessageItems(message, wrap)
    ensures WellLaidOut(draws', pageHeight)
    ensures pages' == draws'[|draws'| - 1].page
    ensures y' == CursorAfter(draws'[|draws'| - 1])
  {
    var withHeader;
    withHeader, pages', y' := DrawHeader(draws, pages, y, message.role, pageHeight);
    var lines := wrap(message.content);
    draws', pages', y' := DrawLines(withHeader, pages', y', lines, pageHeight);
    PrefixOfPrefix(draws', withHeader, draws);
    AppendAssoc(Items(draws), [RoleHeader(message.role)], LineItems(lines));
    y' := y' + MessageGap;
  }

  /**
   * The drawing loop of `generatePDF`: every item of the content drawn once,
   * in order, each placed by the cursor rule; `pages` is the page count.
   */
  method LayOut(data: ChatData, date: string, pageHeight: int, wrap: string -> seq<string>)
    returns (draws: seq<Draw>, pages: nat)
    ensures Items(draws) == Content(data, date, wrap)
    ensures |draws| >= 2
    ensures draws[0] == Draw(1, Margin, TitleText(PdfTitle(data.title)))
    ensures WellLaidOut(draws, pageHeight)
    ensures pages == draws[|draws| - 1].page
  {
    var head := [TitleText(PdfTitle(data.title)), MetaText(MetaLine(data.platform, date))];
    var y := Margin;
    pages := 1;
    var title := Draw(pages, y, TitleText(PdfTitle(data.title)));
    y := y + TitleAdvance;
    var meta := Draw(pages, y, MetaText(MetaLine(data.platform, date)));
    draws := [title, meta];
    assert WellLaidOut(draws, pageHeight) by {
      assert FollowsOn(title, meta, pageHeight);
    }
    assert Items(draws) == head by {
      assert Items([title]) == [title.item];
      ItemsSnoc([title], meta);
    }
    y := y + MetaAdvance;
    var i := 0;
    while i < |data.messages|
      invariant 0 <= i <= |data.messages|
      invariant |draws| >= 2 && draws[0] == title
      invariant WellLaidOut(draws, pageHeight)
      invariant pages == draws[|draws| - 1].page
      invariant Items(draws) == head + MessagesItems(data.messages[..i], wrap)
      invariant y == CursorAfter(draws[|draws| - 1])
    {
      var before := draws;
      draws, pages, y := DrawMessage(draws, pages, y, data.messages[i], wrap, pageHeight);
      assert draws[0] == draws[..|before|][0];
      MessagesItemsStep(head, data.messages, i, wrap, Items(before), Items(draws));
      i := i + 1;
    }
    assert data.messages[..i] == data.messages;
  }

  // ---------------------------------------------------------------------------
  // What the cursor rule guarantees
  // ---------------------------------------------------------------------------

  /** Pages only grow, by one at a time. */
  lemma {:induction false} PagesMonotone(draws: seq<Draw>, pageHeight: int, k1: nat, k2: nat)
    requires WellLaidOut(draws, pageHeight)
    requires k1 <= k2 < |draws|
    ensures draws[k1].page <= draws[k2].page <= draws[k1].page + (k2 - k1)
  {
    if k1 < k2 {
      PagesMonotone(draws, pageHeight, k1, k2 - 1);
      assert FollowsOn(draws[k2 - 1], draws[k2], pageHeight);
    }
  }

  /** Nothing is drawn above the top margin. */
  lemma {:induction false} BelowTopMargin(draws: seq<Draw>, pageHeight: int, k: nat)
    requires WellLaidOut(draws, pageHeight) && draws != [] && draws[0].y == Margin
    requires k < |draws|
    ensures draws[k].y >= Margin
  {
    if k > 0 {
      BelowTopMargin(draws, pageHeight, k - 1);
      assert FollowsOn(draws[k - 1], draws[k], pageHeight);
    }
  }

  /**
   * On a page tall enough for one line below the margins, every header starts
   * at least 40 units, and every line at least 30, above the page's bottom edge.
   */
  lemma WithinBottomMargin(draws: seq<Draw>, pageHeight: int, k: nat)
    requires WellLaidOut(draws, pageHeight) && pageHeight >= 60
    requires 0 < k < |draws|
    ensures draws[k].item.RoleHeader? ==> draws[k].y <= pageHeight - Margin - 20
    ensures draws[k].item.BodyLine? ==> draws[k].y <= pageHeight - Margin - 10
  {
    assert FollowsOn(draws[k - 1], draws[k], pageHeight);
  }

  /** A new page starts exactly where the cursor would pass its limit, and starts at the top margin. */
  lemma PageBreakRule(draws: seq<Draw>, pageHeight: int, k: nat)
    requires WellLaidOut(draws, pageHeight)
    requires 0 < k < |draws|
    ensures draws[k].page != draws[k - 1].page <==>
              BreakLimit(draws[k].item, pageHeight).Some? &&
              draws[k - 1].y + Spacing(draws[k - 1].item, draws[k].item) > BreakLimit(draws[k].item, pageHeight).value
    ensures draws[k].page != draws[k - 1].page ==> draws[k].y == Margin
  {
    assert FollowsOn(draws[k - 1], draws[k], pageHeight);
  }

  /** The cursor rule places an item in one way only after a given draw. */
  lemma FollowsOnUnique(a: Draw, b1: Draw, b2: Draw, pageHeight: int)
    requires FollowsOn(a, b1, pageHeight) && FollowsOn(a, b2, pageHeight)
    requires b1.item == b2.item
    ensures b1 == b2
  {
  }

  /** Two layouts of the same items from the same first draw agree at every index. */
  lemma {:induction false} SameDrawAt(d1: seq<Draw>, d2: seq<Draw>, pageHeight: int, k: nat)
    requires WellLaidOut(d1, pageHeight) && WellLaidOut(d2, pageHeight)
    requires Items(d1) == Items(d2)
    requires d1 != [] && d1[0] == d2[0]
    requires k < |d1|
    ensures d1[k] == d2[k]
  {
    if k > 0 {
      SameDrawAt(d1, d2, pageHeight, k - 1);
      assert FollowsOn(d1[k - 1], d1[k], pageHeight);
      assert FollowsOn(d2[k - 1], d2[k], pageHeight);
      assert Items(d1)[k] == Items(d2)[k];
      FollowsOnUnique(d1[k - 1], d1[k], d2[k], pageHeight);
    }
  }

  /** The cursor rule leaves no freedom: the items and the first draw fix every page and position. */
  lemma LayoutUnique(d1: seq<Draw>, d2: seq<Draw>, pageHeight: int)
    requires WellLaidOut(d1, pageHeight) && WellLaidOut(d2, pageHeight)
    requires Items(d1) == Items(d2)
    requires d1 != [] && d1[0] == d2[0]
    ensures d1 == d2
  {
    forall k | 0 <= k < |d1| ensures d1[k] == d2[k] {
      SameDrawAt(d1, d2, pageHeight, k);
    }
  }

  // ---------------------------------------------------------------------------
  // File name
  // ---------------------------------------------------------------------------

  /** `${platform}_Chat_${new Date().toISOString().slice(0, 10)}.pdf`: the platform and the calendar day. */
  function PdfFilename(platform: string, isoTime: string): (f: string)
    ensures var day := if |isoTime| <= 10 then isoTime else isoTime[..10];
            && |f| == |platform| + 6 + |day| + 4
            && f[..|platform| + 6] == platform + "_Chat_"
            && f[|platform| + 6..|f| - 4] == day
            && EndsWith(f, ".pdf")
  {
    var day := if |isoTime| <= 10 then isoTime else isoTime[..10];
    var f := platform + "_Chat_" + day + ".pdf";
    assert f[..|platform| + 6] == platform + "_Chat_";
    assert f[|platform| + 6..|f| - 4] == day;
    f
  }

  /** The PDF pipeline's results: the draws, the page count and the file name. */
  datatype Pdf = Pdf(draws: seq<Draw>, pages: nat, filename: string)

  /** `generatePDF(chatData)` with the clock's date strings and the page size passed in. */
  method GeneratePdf(data: ChatData, date: string, isoTime: string, pageHeight: int, wrap: string -> seq<string>)
    returns (pdf: Pdf)
    ensures Items(pdf.draws) == Content(data, date, wrap)
    ensures WellLaidOut(pdf.draws, pageHeight) && pdf.draws[0].page == 1 && pdf.draws[0].y == Margin
    ensures pdf.pages == pdf.draws[|pdf.draws| - 1].page
    ensures pdf.filename == PdfFilename(data.platform, isoTime)
  {
    var draws, pages := LayOut(data, date, pageHeight, wrap);
    pdf := Pdf(draws, pages, PdfFilename(data.platform, isoTime));
  }
}
