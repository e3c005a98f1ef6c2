/**
 * `notify/teams.py`: `NotifyTeams` fills in a Microsoft Teams connector card
 * (from the `pymsteams` library) through calls that set its title, text and
 * colour and append sections and link buttons; nothing ever clears the card.
 */
module Teams {
  import opened Wrappers
  import opened Strings
  import opened Frames

  /** A `pymsteams.cardsection`, as far as this code fills it in. */
  datatype Section = Section(activityTitle: Option<string>, activityImage: Option<string>, text: Option<string>)

  datatype LinkButton = LinkButton(name: string, url: string)

  /** One call made on the card, for the record of the order in which a message is put together. */
  datatype CardCall =
    | TitleSet(title: string)
    | TextSet(text: string)
    | ColorSet(color: string)
    | SectionAdded(section: Section)
    | ButtonAdded(button: LinkButton)

  /**
   * The `pymsteams.connectorcard` that `NotifyTeams` fills in: a title, a text,
   * a theme colour, and the ordered sections and link buttons. `calls` records
   * every call made on it, in order.
   */
  class ConnectorCard {
    const hookUrl: string
    var title: Option<string>
    var text: Option<string>
    var color: Option<string>
    var sections: seq<Section>
    var buttons: seq<LinkButton>
    ghost var calls: seq<CardCall>

    constructor (hookUrl: string)
      ensures this.hookUrl == hookUrl
      ensures title.None? && text.None? && color.None? && sections == [] && buttons == [] && calls == []
    {
      this.hookUrl := hookUrl;
      title, text, color := None, None, None;
      sections, buttons := [], [];
      calls := [];
    }

    /** Sets the title. */
    method Title(t: string)
      modifies this
      ensures title == Some(t) && calls == old(calls) + [TitleSet(t)]
      ensures text == old(text) && color == old(color) && sections == old(sections) && buttons == old(buttons)
    {
      title := Some(t);
      calls := calls + [TitleSet(t)];
    }

    /** Sets the text. */
    method Text(t: string)
      modifies this
      ensures text == Some(t) && calls == old(calls) + [TextSet(t)]
      ensures title == old(title) && color == old(color) && sections == old(sections) && buttons == old(buttons)
    {
      text := Some(t);
      calls := calls + [TextSet(t)];
    }

    /** Sets the theme colour. */
    method Color(c: string)
      modifies this
      ensures color == Some(c) && calls == old(calls) + [ColorSet(c)]
      ensures title == old(title) && text == old(text) && sections == old(sections) && buttons == old(buttons)
    {
      color := Some(c);
      calls := calls + [ColorSet(c)];
    }

    /** Appends a section; never inserts or replaces. */
    method AddSection(s: Section)
      modifies this
      ensures sections == old(sections) + [s] && calls == old(calls) + [SectionAdded(s)]
      ensures title == old(title) && text == old(text) && color == old(color) && buttons == old(buttons)
    {
      sections := sections + [s];
      calls := calls + [SectionAdded(s)];
    }

    /** Appends one link button. */
    method AddLinkButton(name: string, url: string)
      modifies this
      ensures buttons == old(buttons) + [LinkButton(name, url)]
      ensures calls == old(calls) + [ButtonAdded(LinkButton(name, url))]
      ensures title == old(title) && text == old(text) && color == old(color) && sections == old(sections)
    {
      buttons := buttons + [LinkButton(name, url)];
      calls := calls + [ButtonAdded(LinkButton(name, url))];
    }
  }

  /** The theme colour every card gets. */
  const ThemeColor: string := "#F0B62E"

  /** The image shown beside every dataset in a report. */
  const ReportImage: string := "https://pbs.twimg.com/profile_images/1269974132818620416/nt7fTdpB.jpg"

  const ReportTextStart: string := "> In totaal **"
  const ReportTextMiddle: string := "** records met **"
  const ReportTextEnd: string := "** kolommen verwerkt"

  /** The heading of a report section: the dataset's name in bold inside `<h1>`. */
  function ReportTitle(name: string): string
  {
    "<h1><b>" + name + "</b></h1>"
  }

  /** The text of a report section: the record and column counts in decimal. */
  function ReportText(shape: Shape): string
  {
    ReportTextStart + Decimal(shape.records) + ReportTextMiddle + Decimal(shape.columns) + ReportTextEnd
  }

  /** The section `create_dataframe_report` builds for one dataset. */
  function ReportSection(name: string, shape: Shape): (r: Section)
    ensures r.activityTitle.Some? && r.activityImage == Some(ReportImage) && r.text.Some?
    ensures |r.activityTitle.value| == |name| + 16 && r.activityTitle.value[7..|name| + 7] == name
    ensures var digits := Decimal(shape.records);
      |r.text.value| > |ReportTextStart| + |digits| &&
      r.text.value[|ReportTextStart|..|ReportTextStart| + |digits|] == digits
  {
    ReportTitleName(name);
    ReportTextParts(shape);
    Section(Some(ReportTitle(name)), Some(ReportImage), Some(ReportText(shape)))
  }

  /** One report section per dataset, in the mapping's order. */
  function ReportSections(dfs: seq<(string, Shape)>): (r: seq<Section>)
    ensures |r| == |dfs|
    ensures forall i :: 0 <= i < |dfs| ==> r[i] == ReportSection(dfs[i].0, dfs[i].1)
  {
    seq(|dfs|, i requires 0 <= i < |dfs| => ReportSection(dfs[i].0, dfs[i].1))
  }

  /** The section `add_full_dataframe` builds: only a text, the markdown of the capped frame. */
  function TableSection(df: Frame, toMarkdown: Frame -> string): (r: Section)
    ensures r.activityTitle.None? && r.activityImage.None?
    ensures !ExceedsLimit(df) ==> r.text == Some(toMarkdown(df))
    ensures ExceedsLimit(df) ==> r.text == Some(toMarkdown(Head(df, RowLimit)))
  {
    Section(None, None, Some(toMarkdown(Capped(df))))
  }

  /** One link button per entry, label and URL kept, in the mapping's order. */
  function Buttons(entries: seq<(string, string)>): (r: seq<LinkButton>)
    ensures |r| == |entries|
    ensures forall i :: 0 <= i < |entries| ==> r[i] == LinkButton(entries[i].0, entries[i].1)
  {
    seq(|entries|, i requires 0 <= i < |entries| => LinkButton(entries[i].0, entries[i].1))
  }

  ghost function SectionCalls(ss: seq<Section>): (r: seq<CardCall>)
    ensures |r| == |ss| && forall i :: 0 <= i < |ss| ==> r[i] == SectionAdded(ss[i])
  {
    seq(|ss|, i requires 0 <= i < |ss| => SectionAdded(ss[i]))
  }

  ghost function ButtonCalls(bs: seq<LinkButton>): (r: seq<CardCall>)
    ensures |r| == |bs| && forall i :: 0 <= i < |bs| ==> r[i] == ButtonAdded(bs[i])
  {
    seq(|bs|, i requires 0 <= i < |bs| => ButtonAdded(bs[i]))
  }

  lemma SectionCallsConcat(a: seq<Section>, b: seq<Section>)
    ensures SectionCalls(a + b) == SectionCalls(a) + SectionCalls(b)
  {
  }

  lemma Regroup<T>(a: seq<T>, b: seq<T>, c: seq<T>)
    ensures a + (b + c) == a + b + c
  {
  }

  lemma Regroup4<T>(a: seq<T>, b: seq<T>, c: seq<T>, d: seq<T>)
    ensures a + b + c + d == a + (b + c + d)
  {
  }

  /** The sections `basic_message` adds: the report, then the table unless the frame is empty. */
  function MessageSections(df: Frame, dfs: Option<seq<(string, Shape)>>, toMarkdown: Frame -> string): seq<Section>
  {
    (if Truthy(dfs) then ReportSections(dfs.value) else [])
      + (if IsEmpty(df) then [] else [TableSection(df, toMarkdown)])
  }

  /** The calls `basic_message` makes on the card, in order. */
  ghost function MessageCalls(title: string, message: Option<string>, buttons: Option<seq<(string, string)>>,
                              df: Frame, dfs: Option<seq<(string, Shape)>>, toMarkdown: Frame -> string): seq<CardCall>
  {
    [TitleSet(title)]
      + (if Truthy(message) then [TextSet(message.value)] else [])
      + SectionCalls(MessageSections(df, dfs, toMarkdown))
      + (if Truthy(buttons) then ButtonCalls(Buttons(buttons.value)) else [])
  }

  lemma MessageCallsParts(title: string, message: Option<string>, buttons: Option<seq<(string, string)>>,
                          df: Frame, dfs: Option<seq<(string, Shape)>>, toMarkdown: Frame -> string,
                          report: seq<Section>, table: seq<Section>, bs: seq<LinkButton>)
    requires report == if Truthy(dfs) then ReportSections(dfs.value) else []
    requires table == if IsEmpty(df) then [] else [TableSection(df, toMarkdown)]
    requires bs == if Truthy(buttons) then Buttons(buttons.value) else []
    ensures MessageCalls(title, message, buttons, df, dfs, toMarkdown)
         == [TitleSet(title)] + (if Truthy(message) then [TextSet(message.value)] else [])
            + (SectionCalls(report) + SectionCalls(table)) + ButtonCalls(bs)
  {
    SectionCallsConcat(report, table);
  }

  /** The report title holds the dataset's name between the opening and closing tags. */
  lemma ReportTitleName(name: string)
    ensures |ReportTitle(name)| == |name| + 16
    ensures ReportTitle(name)[7..|name| + 7] == name
  {
    assert ReportTitle(name) == "<h1><b>" + name + "</b></h1>";
    assert ReportTitle(name)[7..|name| + 7] == name;
  }

  /** Two datasets get the same report heading only when they have the same name. */
  lemma ReportTitleInjective(a: string, b: string)
    requires ReportTitle(a) == ReportTitle(b)
    ensures a == b
  {
    ReportTitleName(a);
    ReportTitleName(b);
  }

  lemma CancelPrefix<T>(p: seq<T>, x: seq<T>, y: seq<T>)
    requires p + x == p + y
    ensures x == y
  {
    assert x == (p + x)[|p|..];
    assert y == (p + y)[|p|..];
  }

  lemma ReportTextParts(sh: Shape)
    ensures ReportText(sh) == ReportTextStart + (Decimal(sh.records) + (ReportTextMiddle + (Decimal(sh.columns) + ReportTextEnd)))
  {
  }

  /** The report text determines the shape it was written from: the record count, then the column count. */
  lemma {:induction false} ReportTextInjective(s1: Shape, s2: Shape)
    requires ReportText(s1) == ReportText(s2)
    ensures s1 == s2
  {
    var r1, c1 := Decimal(s1.records), Decimal(s1.columns);
    var r2, c2 := Decimal(s2.records), Decimal(s2.columns);
    var e1, e2 := c1 + ReportTextEnd, c2 + ReportTextEnd;
    var t1, t2 := ReportTextMiddle + e1, ReportTextMiddle + e2;
    ReportTextParts(s1);
    ReportTextParts(s2);
    CancelPrefix(ReportTextStart, r1 + t1, r2 + t2);
    assert t1[0] == '*' && t2[0] == '*';
    DigitsThenOther(r1, t1, r2, t2);
    DecimalInjective(s1.records, s2.records);
    CancelPrefix(ReportTextMiddle, e1, e2);
    assert ReportTextEnd[0] == '*';
    DigitsThenOther(c1, ReportTextEnd, c2, ReportTextEnd);
    DecimalInjective(s1.columns, s2.columns);
  }

  /**
   * Distinct datasets give distinct report sections, so the report section
   * names the dataset and the shape it stands for.
   */
  lemma ReportSectionInjective(n1: string, s1: Shape, n2: string, s2: Shape)
    requires ReportSection(n1, s1) == ReportSection(n2, s2)
    ensures n1 == n2 && s1 == s2
  {
    ReportTitleInjective(n1, n2);
    ReportTextInjective(s1, s2);
  }

  /** The table section is added, and added last, exactly when the frame is not empty. */
  lemma TableSectionLast(df: Frame, dfs: Option<seq<(string, Shape)>>, toMarkdown: Frame -> string)
    ensures var ss := MessageSections(df, dfs, toMarkdown);
      !IsEmpty(df) <==> (|ss| > 0 && ss[|ss| - 1].activityTitle.None?)
    ensures var ss := MessageSections(df, dfs, toMarkdown);
      !IsEmpty(df) ==> ss[|ss| - 1] == TableSection(df, toMarkdown)
    ensures var ss := MessageSections(df, dfs, toMarkdown);
      forall i :: 0 <= i < |ss| && ss[i].activityTitle.Some? ==> Truthy(dfs) && i < |dfs.value|
  {
  }

  /** Where a call comes in the order `basic_message` fills the card. */
  function Rank(c: CardCall): nat
  {
    match c
    case TitleSet(_) => 0
    case ColorSet(_) => 0
    case TextSet(_) => 1
    case SectionAdded(s) => if s.activityTitle.Some? then 2 else 3
    case ButtonAdded(_) => 4
  }

  ghost predicate RankSorted(cs: seq<CardCall>)
  {
    forall i, j :: 0 <= i < j < |cs| ==> Rank(cs[i]) <= Rank(cs[j])
  }

  ghost predicate RanksWithin(cs: seq<CardCall>, lo: nat, hi: nat)
  {
    forall i :: 0 <= i < |cs| ==> lo <= Rank(cs[i]) <= hi
  }

  lemma RankedConcat(a: seq<CardCall>, b: seq<CardCall>, lo: nat, mid: nat, hi: nat)
    requires lo <= mid <= hi
    requires RankSorted(a) && RanksWithin(a, lo, mid)
    requires RankSorted(b) && RanksWithin(b, mid, hi)
    ensures RankSorted(a + b) && RanksWithin(a + b, lo, hi)
  {
    forall i, j | 0 <= i < j < |a + b|
      ensures Rank((a + b)[i]) <= Rank((a + b)[j])
    {
      if j < |a| {
        assert (a + b)[i] == a[i] && (a + b)[j] == a[j];
      } else if i >= |a| {
        assert (a + b)[i] == b[i - |a|] && (a + b)[j] == b[j - |a|];
      } else {
        assert (a + b)[i] == a[i] && (a + b)[j] == b[j - |a|];
      }
    }
    forall i | 0 <= i < |a + b|
      ensures lo <= Rank((a + b)[i]) <= hi
    {
      if i < |a| {
        assert (a + b)[i] == a[i];
      } else {
        assert (a + b)[i] == b[i - |a|];
      }
    }
  }

  /**
   * `basic_message` makes its calls in a fixed order: the title first, then
   * the text, the report sections, the table section and the buttons; so the
   * title goes on every message and nothing comes before it.
   */
  lemma MessageCallsOrder(title: string, message: Option<string>, buttons: Option<seq<(string, string)>>,
                          df: Frame, dfs: Option<seq<(string, Shape)>>, toMarkdown: Frame -> string)
    ensures var cs := MessageCalls(title, message, buttons, df, dfs, toMarkdown);
      |cs| > 0 && cs[0] == TitleSet(title) && RankSorted(cs)
  {
    var report := if Truthy(dfs) then ReportSections(dfs.value) else [];
    var table := if IsEmpty(df) then [] else [TableSection(df, toMarkdown)];
    var bs := if Truthy(buttons) then Buttons(buttons.value) else [];
    var text: seq<CardCall> := if Truthy(message) then [TextSet(message.value)] else [];
    MessageCallsParts(title, message, buttons, df, dfs, toMarkdown, report, table, bs);
    PartsSorted(title, text, report, table, bs);
  }

  /** Title, text, titled sections, untitled sections, then buttons is an order `Rank` never goes back on. */
  lemma PartsSorted(title: string, text: seq<CardCall>, report: seq<Section>, table: seq<Section>, bs: seq<LinkButton>)
    requires RanksWithin(text, 1, 1)
    requires forall i :: 0 <= i < |report| ==> report[i].activityTitle.Some?
    requires forall i :: 0 <= i < |table| ==> table[i].activityTitle.None?
    ensures RankSorted([TitleSet(title)] + text + (SectionCalls(report) + SectionCalls(table)) + ButtonCalls(bs))
  {
    var a, b, c, d := [TitleSet(title)], SectionCalls(report), SectionCalls(table), ButtonCalls(bs);
    assert RanksWithin(b, 2, 2);
    assert RanksWithin(c, 3, 3);
    assert RanksWithin(d, 4, 4);
    RankedConcat(a, text, 0, 1, 1);
    RankedConcat(a + text, b, 0, 2, 2);
    RankedConcat(a + text + b, c, 0, 3, 3);
    RankedConcat(a + text + b + c, d, 0, 4, 4);
    Regroup(a + text, b, c);
  }

  class NotifyTeams {
    const msg: ConnectorCard
    /** The truncation warnings logged so far. */
    ghost var warnings: nat

    /** `NotifyTeams(webhook)`: a fresh card for the webhook, with the theme colour set. */
    constructor (webhook: string)
      ensures fresh(msg) && msg.hookUrl == webhook
      ensures msg.color == Some(ThemeColor)
      ensures msg.title.None? && msg.text.None? && msg.sections == [] && msg.buttons == []
      ensures msg.calls == [ColorSet(ThemeColor)] && warnings == 0
    {
      msg := new ConnectorCard(webhook);
      warnings := 0;
      new;
      msg.Color(ThemeColor);
    }

    /** `add_full_dataframe(df)`: appends exactly one section holding the capped frame as markdown. */
    method AddFullDataframe(df: Frame, toMarkdown: Frame -> string)
      modifies msg, this
      ensures msg.sections == old(msg.sections) + [TableSection(df, toMarkdown)]
      ensures msg.calls == old(msg.calls) + [SectionAdded(TableSection(df, toMarkdown))]
      ensures msg.title == old(msg.title) && msg.text == old(msg.text)
      ensures msg.color == old(msg.color) && msg.buttons == old(msg.buttons)
      ensures warnings == old(warnings) + if ExceedsLimit(df) then 1 else 0
    {
      var frame := df;
      if |df.rows| > 30 {
        warnings := warnings + 1;
        frame := Head(df, 30);
      }
      var section := Section(None, None, Some(toMarkdown(frame)));
      msg.AddSection(section);
    }

    /** `create_dataframe_report(dfs)`: appends one report section per dataset, in order. */
    method CreateDataframeReport(dfs: seq<(string, Shape)>)
      modifies msg
      ensures msg.sections == old(msg.sections) + ReportSections(dfs)
      ensures msg.calls == old(msg.calls) + SectionCalls(ReportSections(dfs))
      ensures msg.title == old(msg.title) && msg.text == old(msg.text)
      ensures msg.color == old(msg.color) && msg.buttons == old(msg.buttons)
    {
      for i := 0 to |dfs|
        invariant msg.sections == old(msg.sections) + ReportSections(dfs[..i])
        invariant msg.calls == old(msg.calls) + SectionCalls(ReportSections(dfs[..i]))
        invariant msg.title == old(msg.title) && msg.text == old(msg.text)
        invariant msg.color == old(msg.color) && msg.buttons == old(msg.buttons)
      {
        var (name, shape) := dfs[i];
        var section := ReportSection(name, shape);
        msg.AddSection(section);
        assert ReportSections(dfs[..i + 1]) == ReportSections(dfs[..i]) + [section];
        assert SectionCalls(ReportSections(dfs[..i + 1])) == SectionCalls(ReportSections(dfs[..i])) + [SectionAdded(section)];
      }
      assert dfs[..|dfs|] == dfs;
    }

    /** `create_buttons(buttons)`: appends one link button per entry, in order. */
    method CreateButtons(entries: seq<(string, string)>)
      modifies msg
      ensures msg.buttons == old(msg.buttons) + Buttons(entries)
      ensures msg.calls == old(msg.calls) + ButtonCalls(Buttons(entries))
      ensures msg.title == old(msg.title) && msg.text == old(msg.text)
      ensures msg.color == old(msg.color) && msg.sections == old(msg.sections)
    {
      for i := 0 to |entries|
        invariant msg.buttons == old(msg.buttons) + Buttons(entries[..i])
        invariant msg.calls == old(msg.calls) + ButtonCalls(Buttons(entries[..i]))
        invariant msg.title == old(msg.title) && msg.text == old(msg.text)
        invariant msg.color == old(msg.color) && msg.sections == old(msg.sections)
      {
        var (name, link) := entries[i];
        msg.AddLinkButton(name, link);
        assert Buttons(entries[..i + 1]) == Buttons(entries[..i]) + [LinkButton(name, link)];
        assert ButtonCalls(Buttons(entries[..i + 1])) == ButtonCalls(Buttons(entries[..i])) + [ButtonAdded(LinkButton(name, link))];
      }
      assert entries[..|entries|] == entries;
    }

    /**
     * `basic_message(title, message, buttons, df, dfs)` up to the send: the
     * title always, the text for a non-empty message, the report sections,
     * the table section for a non-empty frame, then the buttons.
     */
    method BasicMessage(title: string, message: Option<string>, buttons: Option<seq<(string, string)>>,
                        df: Frame, dfs: Option<seq<(string, Shape)>>, toMarkdown: Frame -> string)
      modifies msg, this
      ensures msg.title == Some(title)
      ensures msg.text == if Truthy(message) then message else old(msg.text)
      ensures msg.color == old(msg.color)
      ensures msg.sections == old(msg.sections) + MessageSections(df, dfs, toMarkdown)
      ensures |msg.sections| == |old(msg.sections)| + (if Truthy(dfs) then |dfs.value| else 0) + (if IsEmpty(df) then 0 else 1)
      ensures msg.buttons == old(msg.buttons) + (if Truthy(buttons) then Buttons(buttons.value) else [])
      ensures msg.calls == old(msg.calls) + MessageCalls(title, message, buttons, df, dfs, toMarkdown)
      ensures warnings == old(warnings) + if !IsEmpty(df) && ExceedsLimit(df) then 1 else 0
    {
      ghost var calls0 := msg.calls;
      msg.Title(title);
      if Truthy(message) {
        msg.Text(message.value);
      }
      ghost var textCalls := if Truthy(message) then [TextSet(message.value)] else [];
      assert msg.calls == calls0 + ([TitleSet(title)] + textCalls);
      ghost var calls1 := msg.calls;
      AddMessageSections(df, dfs, toMarkdown);
      ghost var calls2 := msg.calls;
      ghost var bs := if Truthy(buttons) then Buttons(buttons.value) else [];
      if Truthy(buttons) {
        CreateButtons(buttons.value);
      }
      assert msg.calls == calls2 + ButtonCalls(bs);
      ghost var sectionCalls := SectionCalls(MessageSections(df, dfs, toMarkdown));
      assert msg.calls == calls0 + ([TitleSet(title)] + textCalls) + sectionCalls + ButtonCalls(bs);
      assert MessageCalls(title, message, buttons, df, dfs, toMarkdown) == [TitleSet(title)] + textCalls + sectionCalls + ButtonCalls(bs);
      Regroup4(calls0, [TitleSet(title)] + textCalls, sectionCalls, ButtonCalls(bs));
    }

    /** The middle of `basic_message`: the report sections for a non-empty mapping, then the table for a non-empty frame. */
    method AddMessageSections(df: Frame, dfs: Option<seq<(string, Shape)>>, toMarkdown: Frame -> string)
      modifies msg, this
      ensures msg.sections == old(msg.sections) + MessageSections(df, dfs, toMarkdown)
      ensures msg.calls == old(msg.calls) + SectionCalls(MessageSections(df, dfs, toMarkdown))
      ensures msg.title == old(msg.title) && msg.text == old(msg.text)
      ensures msg.color == old(msg.color) && msg.buttons == old(msg.buttons)
      ensures warnings == old(warnings) + if !IsEmpty(df) && ExceedsLimit(df) then 1 else 0
    {
      ghost var sections0, calls0 := msg.sections, msg.calls;
      ghost var report := if Truthy(dfs) then ReportSections(dfs.value) else [];
      if Truthy(dfs) {
        CreateDataframeReport(dfs.value);
      }
      assert msg.sections == sections0 + report;
      assert msg.calls == calls0 + SectionCalls(report);
      ghost var table := if IsEmpty(df) then [] else [TableSection(df, toMarkdown)];
      ghost var sections1, calls1 := msg.sections, msg.calls;
      if !IsEmpty(df) {
        AddFullDataframe(df, toMarkdown);
      }
      assert msg.sections == sections1 + table;
      assert msg.calls == calls1 + SectionCalls(table);
      SectionCallsConcat(report, table);
      assert MessageSections(df, dfs, toMarkdown) == report + table;
    }
  }
}
