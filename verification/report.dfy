/**
 * The text of one stock's report file, as `process_stock` writes it after the
 * analysis engine has returned `(final_state, decision)`.
 *
 * `Render` follows the sequence of `f.write` calls, including the exception a
 * badly shaped state raises half-way (the file then keeps what was written
 * before the raise). `Outline` is an independent, declarative description of
 * the same report as a list of blocks; `RenderMatchesOutline` connects them.
 */
module Report {
  import opened Wrappers
  import opened Text
  import opened PyValues

  // ---------------------------------------------------------------------------
  // The fixed vocabulary of the report
  // ---------------------------------------------------------------------------

  /** The four analyst reports, in the order of the `reports` dict. */
  datatype SectionKind = Market | Fundamentals | News | Sentiment

  const SectionOrder: seq<SectionKind> := [Market, Fundamentals, News, Sentiment]

  function SectionKey(k: SectionKind): string {
    match k
    case Market => "market_report"
    case Fundamentals => "fundamentals_report"
    case News => "news_report"
    case Sentiment => "sentiment_report"
  }

  function SectionTitle(k: SectionKind): string {
    match k
    case Market => "📈 市场与技术面分析 (Market Report)"
    case Fundamentals => "📊 基本面分析 (Fundamentals Report)"
    case News => "📰 新闻与事件分析 (News Report)"
    case Sentiment => "🧠 市场情绪分析 (Sentiment Report)"
  }

  /** Position of a section in the fixed order. */
  function SectionRank(k: SectionKind): nat {
    match k
    case Market => 0
    case Fundamentals => 1
    case News => 2
    case Sentiment => 3
  }

  datatype DebateKind = InvestmentDebate | RiskDebate

  function DebateKey(d: DebateKind): string {
    match d
    case InvestmentDebate => "investment_debate_state"
    case RiskDebate => "risk_debate_state"
  }

  function DebateTitle(d: DebateKind): string {
    match d
    case InvestmentDebate => "🗣️ 投资逻辑内部辩论 (Investment Debate)"
    case RiskDebate => "🛡️ 风险控制内部辩论 (Risk Debate)"
  }

  /** The participants whose contributions a debate block lists. */
  datatype Speaker = Bull | Bear | PortfolioManager | Aggressive | Conservative | Neutral | RiskJudge

  function Speakers(d: DebateKind): seq<Speaker> {
    match d
    case InvestmentDebate => [Bull, Bear, PortfolioManager]
    case RiskDebate => [Aggressive, Conservative, Neutral, RiskJudge]
  }

  function SpeakerKey(s: Speaker): string {
    match s
    case Bull => "bull_history"
    case Bear => "bear_history"
    case PortfolioManager => "judge_decision"
    case Aggressive => "aggressive_history"
    case Conservative => "conservative_history"
    case Neutral => "neutral_history"
    case RiskJudge => "judge_decision"
  }

  function SpeakerLabel(s: Speaker): string {
    match s
    case Bull => "🟢 多方观点 Bull Analyst"
    case Bear => "🔴 空方观点 Bear Analyst"
    case PortfolioManager => "⚖️ 投资总监裁决 Portfolio Manager"
    case Aggressive => "⚔️ 激进派观点 Aggressive Analyst"
    case Conservative => "🛡️ 保守派观点 Conservative Analyst"
    case Neutral => "⚖️ 中立派观点 Neutral Analyst"
    case RiskJudge => "🛑 风控总监裁决 Risk Judge"
  }

  /** Position of a speaker within its debate block. */
  function SpeakerRank(s: Speaker): nat {
    match s
    case Bull => 0
    case Bear => 1
    case PortfolioManager => 2
    case Aggressive => 0
    case Conservative => 1
    case Neutral => 2
    case RiskJudge => 3
  }

  // ---------------------------------------------------------------------------
  // Text pieces
  // ---------------------------------------------------------------------------

  function Header(stock: string, date: string): string {
    "目标股票: " + stock + "\n" + "分析日期: " + date + "\n" + Rule('=', 50) + "\n\n"
    + "【AI 投研团队推演与深度分析全记录】\n" + Rule('-', 50) + "\n"
  }

  /** The framed title that opens a section or a debate block. */
  function Banner(title: string): string {
    "\n\n" + Rule('=', 40) + "\n" + title + "\n" + Rule('=', 40) + "\n"
  }

  function TurnLine(s: Speaker, text: string): string {
    "\n[" + SpeakerLabel(s) + "]:\n" + text + "\n"
  }

  const RawWarning: string := "⚠️ 未能解析到标准的状态字典，输出原始状态：\n"

  function Footer(decision: string): string {
    "\n\n" + Rule('=', 50) + "\n" + "【最终交易决策总结】\n" + Rule('=', 50) + "\n" + decision + "\n"
  }

  // ---------------------------------------------------------------------------
  // The writer: what ends up in the file, and whether an exception stopped it
  // ---------------------------------------------------------------------------

  /** The text written to the file so far and the exception that interrupted writing, if any. */
  datatype Output = Output(text: string, raised: Option<PyException>)

  const Empty: Output := Output("", None)

  function Write(s: string): Output {
    Output(s, None)
  }

  function Raise(e: PyException): Output {
    Output("", Some(e))
  }

  /** Run `a`, then `b` unless `a` raised. */
  function Then(a: Output, b: Output): (r: Output)
    ensures IsPrefix(a.text, r.text)
    ensures r.raised.None? <==> a.raised.None? && b.raised.None?
    ensures a.raised.None? ==> IsSuffix(b.text, r.text)
    ensures a.raised.Some? ==> r == a
    ensures a.raised.None? ==> r.text == a.text + b.text && r.raised == b.raised
  {
    if a.raised.Some? then a else Output(a.text + b.text, b.raised)
  }

  /** `final_state.get(today_str, final_state)`: unwrap one date-keyed layer if there is one. */
  function StateData(state: PyValue, date: string): (data: PyValue)
    requires state.PyDict?
    ensures date in state.entries ==> data == state.entries[date]
    ensures date !in state.entries ==> data == state
  {
    DictGet(state, date, state).value
  }

  /** One iteration of the loop over the analyst reports. */
  function WriteSection(data: PyValue, k: SectionKind): Output {
    match Contains(data, SectionKey(k))
    case Failure(e) => Raise(e)
    case Success(present) =>
      if !present then Empty
      else
        match GetItem(data, SectionKey(k))
        case Failure(e) => Raise(e)
        case Success(v) => if Truthy(v) then Write(Banner(SectionTitle(k)) + Str(v)) else Empty
  }

  function WriteSections(data: PyValue, kinds: seq<SectionKind>): Output
    decreases |kinds|
  {
    if |kinds| == 0 then Empty
    else Then(WriteSection(data, kinds[0]), WriteSections(data, kinds[1..]))
  }

  function WriteTurn(debate: PyValue, s: Speaker): Output {
    match Contains(debate, SpeakerKey(s))
    case Failure(e) => Raise(e)
    case Success(present) =>
      if !present then Empty
      else
        match GetItem(debate, SpeakerKey(s))
        case Failure(e) => Raise(e)
        case Success(v) => Write(TurnLine(s, Str(v)))
  }

  function WriteTurns(debate: PyValue, speakers: seq<Speaker>): Output
    decreases |speakers|
  {
    if |speakers| == 0 then Empty
    else Then(WriteTurn(debate, speakers[0]), WriteTurns(debate, speakers[1..]))
  }

  /** A debate block: its banner goes out as soon as the key is found, before the sub-mapping is read. */
  function WriteDebate(data: PyValue, d: DebateKind): Output {
    match Contains(data, DebateKey(d))
    case Failure(e) => Raise(e)
    case Success(present) =>
      if !present then Empty
      else
        Then(Write(Banner(DebateTitle(d))),
             match GetItem(data, DebateKey(d))
             case Failure(e) => Raise(e)
             case Success(debate) => WriteTurns(debate, Speakers(d)))
  }

  function WriteBody(state: PyValue, date: string): Output {
    if state.PyDict? then
      var data := StateData(state, date);
      Then(WriteSections(data, SectionOrder),
           Then(WriteDebate(data, InvestmentDebate), WriteDebate(data, RiskDebate)))
    else
      Write(RawWarning + Str(state) + "\n")
  }

  /** The report file's content for `(stock, date, final_state, decision)`. */
  function Render(stock: string, date: string, state: PyValue, decision: PyValue): (r: Output)
    ensures IsPrefix(Header(stock, date), r.text)
    ensures r.raised.None? ==> IsSuffix(Footer(Str(decision)), r.text)
    ensures !state.PyDict? ==> r.raised.None?
  {
    Then(Write(Header(stock, date)), Then(WriteBody(state, date), Write(Footer(Str(decision)))))
  }

  // ---------------------------------------------------------------------------
  // The reference description: the report as a list of blocks
  // ---------------------------------------------------------------------------

  datatype Turn = Turn(speaker: Speaker, text: string)

  datatype Block =
    | HeaderBlock(stock: string, date: string)
    | SectionBlock(section: SectionKind, body: string)
    | DebateBlock(debate: DebateKind, turns: seq<Turn>)
    | RawBlock(raw: string)
    | DecisionBlock(decision: string)

  function TurnTexts(turns: seq<Turn>): seq<string> {
    seq(|turns|, i requires 0 <= i < |turns| => TurnLine(turns[i].speaker, turns[i].text))
  }

  function BlockText(b: Block): string {
    match b
    case HeaderBlock(stock, date) => Header(stock, date)
    case SectionBlock(k, body) => Banner(SectionTitle(k)) + body
    case DebateBlock(d, turns) => Banner(DebateTitle(d)) + Concat(TurnTexts(turns))
    case RawBlock(raw) => RawWarning + raw + "\n"
    case DecisionBlock(decision) => Footer(decision)
  }

  function BlockTexts(blocks: seq<Block>): seq<string> {
    seq(|blocks|, i requires 0 <= i < |blocks| => BlockText(blocks[i]))
  }

  /** Place of a block in the report: header, analyst sections (or the raw dump), investment, risk, decision. */
  function Rank(b: Block): nat {
    match b
    case HeaderBlock(_, _) => 0
    case SectionBlock(k, _) => 1 + SectionRank(k)
    case RawBlock(_) => 1
    case DebateBlock(InvestmentDebate, _) => 5
    case DebateBlock(RiskDebate, _) => 6
    case DecisionBlock(_) => 7
  }

  predicate TurnsOrdered(turns: seq<Turn>) {
    forall i, j :: 0 <= i < j < |turns| ==> SpeakerRank(turns[i].speaker) < SpeakerRank(turns[j].speaker)
  }

  /** Blocks in strictly increasing rank (so each kind at most once, in the fixed order), turns likewise. */
  predicate Ordered(blocks: seq<Block>) {
    && (forall i, j :: 0 <= i < j < |blocks| ==> Rank(blocks[i]) < Rank(blocks[j]))
    && (forall i :: 0 <= i < |blocks| && blocks[i].DebateBlock? ==> TurnsOrdered(blocks[i].turns))
  }

  /** A section is shown when its key is present and its value is truthy. */
  predicate Shown(d: map<string, PyValue>, k: SectionKind) {
    SectionKey(k) in d && Truthy(d[SectionKey(k)])
  }

  function ShownSections(d: map<string, PyValue>, kinds: seq<SectionKind>): seq<Block>
    decreases |kinds|
  {
    if |kinds| == 0 then []
    else
      (if Shown(d, kinds[0]) then [SectionBlock(kinds[0], Str(d[SectionKey(kinds[0])]))] else [])
      + ShownSections(d, kinds[1..])
  }

  function PresentTurns(e: map<string, PyValue>, speakers: seq<Speaker>): seq<Turn>
    decreases |speakers|
  {
    if |speakers| == 0 then []
    else
      (if SpeakerKey(speakers[0]) in e then [Turn(speakers[0], Str(e[SpeakerKey(speakers[0])]))] else [])
      + PresentTurns(e, speakers[1..])
  }

  /** The debate value, when present, is a mapping the sub-fields can be read from. */
  predicate DebateShaped(d: map<string, PyValue>, k: DebateKind) {
    DebateKey(k) in d ==> d[DebateKey(k)].PyDict?
  }

  /** States the writer can read without raising: not a mapping at all, or the expected nesting of mappings. */
  predicate WellShaped(state: PyValue, date: string) {
    state.PyDict? ==>
      var data := StateData(state, date);
      && data.PyDict?
      && DebateShaped(data.entries, InvestmentDebate)
      && DebateShaped(data.entries, RiskDebate)
  }

  function DebateBlocks(d: map<string, PyValue>, k: DebateKind): seq<Block>
    requires DebateShaped(d, k)
  {
    if DebateKey(k) in d then [DebateBlock(k, PresentTurns(d[DebateKey(k)].entries, Speakers(k)))] else []
  }

  /** The body (between header and decision) of a state of the expected shape. */
  function BodyBlocks(state: PyValue, date: string): seq<Block>
    requires WellShaped(state, date)
  {
    if state.PyDict? then
      var d := StateData(state, date).entries;
      ShownSections(d, SectionOrder) + DebateBlocks(d, InvestmentDebate) + DebateBlocks(d, RiskDebate)
    else
      [RawBlock(Str(state))]
  }

  /** The whole report as blocks: header, body, decision. */
  function Outline(stock: string, date: string, state: PyValue, decision: PyValue): seq<Block>
    requires WellShaped(state, date)
  {
    [HeaderBlock(stock, date)] + BodyBlocks(state, date) + [DecisionBlock(Str(decision))]
  }

  // ---------------------------------------------------------------------------
  // The writer agrees with the reference description
  // ---------------------------------------------------------------------------

  lemma BlockTextsAppend(a: seq<Block>, b: seq<Block>)
    ensures BlockTexts(a + b) == BlockTexts(a) + BlockTexts(b)
  {
  }

  lemma TurnTextsAppend(a: seq<Turn>, b: seq<Turn>)
    ensures TurnTexts(a + b) == TurnTexts(a) + TurnTexts(b)
  {
  }

  /** The section loop writes exactly the shown sections, in loop order, and never raises on a dict. */
  lemma {:induction false} SectionsMatch(data: PyValue, kinds: seq<SectionKind>)
    requires data.PyDict?
    ensures WriteSections(data, kinds) == Write(Concat(BlockTexts(ShownSections(data.entries, kinds))))
    decreases |kinds|
  {
    if |kinds| > 0 {
      SectionsMatch(data, kinds[1..]);
      var head := if Shown(data.entries, kinds[0]) then [SectionBlock(kinds[0], Str(data.entries[SectionKey(kinds[0])]))] else [];
      BlockTextsAppend(head, ShownSections(data.entries, kinds[1..]));
      ConcatAppend(BlockTexts(head), BlockTexts(ShownSections(data.entries, kinds[1..])));
      assert Concat(BlockTexts(head)) == WriteSection(data, kinds[0]).text;
    }
  }

  /** The sub-field writes of a debate block list exactly the present speakers, in order. */
  lemma {:induction false} TurnsMatch(debate: PyValue, speakers: seq<Speaker>)
    requires debate.PyDict?
    ensures WriteTurns(debate, speakers) == Write(Concat(TurnTexts(PresentTurns(debate.entries, speakers))))
    decreases |speakers|
  {
    if |speakers| > 0 {
      TurnsMatch(debate, speakers[1..]);
      var head := if SpeakerKey(speakers[0]) in debate.entries then [Turn(speakers[0], Str(debate.entries[SpeakerKey(speakers[0])]))] else [];
      TurnTextsAppend(head, PresentTurns(debate.entries, speakers[1..]));
      ConcatAppend(TurnTexts(head), TurnTexts(PresentTurns(debate.entries, speakers[1..])));
      assert Concat(TurnTexts(head)) == WriteTurn(debate, speakers[0]).text;
    }
  }

  /** With the key present and a dict under it, the block is the banner followed by the turns. */
  lemma WriteDebatePresent(data: PyValue, k: DebateKind)
    requires data.PyDict? && DebateKey(k) in data.entries && data.entries[DebateKey(k)].PyDict?
    ensures WriteDebate(data, k)
         == Write(Banner(DebateTitle(k)) + Concat(TurnTexts(PresentTurns(data.entries[DebateKey(k)].entries, Speakers(k)))))
    ensures WriteDebate(data, k)
         == Write(BlockText(DebateBlock(k, PresentTurns(data.entries[DebateKey(k)].entries, Speakers(k)))))
  {
    TurnsMatch(data.entries[DebateKey(k)], Speakers(k));
    DebateBlockText(k, PresentTurns(data.entries[DebateKey(k)].entries, Speakers(k)));
  }

  lemma DebateBlockText(k: DebateKind, turns: seq<Turn>)
    ensures BlockText(DebateBlock(k, turns)) == Banner(DebateTitle(k)) + Concat(TurnTexts(turns))
  {
  }

  lemma DebateMatches(data: PyValue, k: DebateKind)
    requires data.PyDict? && DebateShaped(data.entries, k)
    ensures WriteDebate(data, k) == Write(Concat(BlockTexts(DebateBlocks(data.entries, k))))
  {
    if DebateKey(k) in data.entries {
      DebateBlockPresent(data, k);
    } else {
      assert WriteDebate(data, k) == Empty;
      assert BlockTexts([]) == [];
    }
  }

  /** A present debate's one block renders as the writer writes it. */
  lemma DebateBlockPresent(data: PyValue, k: DebateKind)
    requires data.PyDict? && DebateKey(k) in data.entries && data.entries[DebateKey(k)].PyDict?
    ensures WriteDebate(data, k) == Write(Concat(BlockTexts(DebateBlocks(data.entries, k))))
  {
    var turns := PresentTurns(data.entries[DebateKey(k)].entries, Speakers(k));
    var b := DebateBlock(k, turns);
    assert DebateBlocks(data.entries, k) == [b];
    WriteDebatePresent(data, k);
    SingleBlockText(b);
  }

  lemma ConcatBlocks3(a: seq<Block>, b: seq<Block>, c: seq<Block>)
    ensures Concat(BlockTexts(a + b + c)) == Concat(BlockTexts(a)) + Concat(BlockTexts(b)) + Concat(BlockTexts(c))
  {
    BlockTextsAppend(a + b, c);
    BlockTextsAppend(a, b);
    ConcatAppend(BlockTexts(a) + BlockTexts(b), BlockTexts(c));
    ConcatAppend(BlockTexts(a), BlockTexts(b));
  }

  lemma BodyMatches(state: PyValue, date: string)
    requires WellShaped(state, date)
    ensures WriteBody(state, date) == Write(Concat(BlockTexts(BodyBlocks(state, date))))
  {
    if state.PyDict? {
      MappingBodyMatches(state, date);
    } else {
      assert BlockTexts(BodyBlocks(state, date)) == [RawWarning + Str(state) + "\n"];
    }
  }

  lemma ThenWrites(x: string, y: string, z: string)
    ensures Then(Write(x), Then(Write(y), Write(z))) == Write(x + y + z)
  {
    assert x + (y + z) == x + y + z;
  }

  lemma MappingBodyMatches(state: PyValue, date: string)
    requires WellShaped(state, date) && state.PyDict?
    ensures WriteBody(state, date) == Write(Concat(BlockTexts(BodyBlocks(state, date))))
  {
    {
      var data := StateData(state, date);
      var d := data.entries;
      var s := ShownSections(d, SectionOrder);
      var inv := DebateBlocks(d, InvestmentDebate);
      var risk := DebateBlocks(d, RiskDebate);
      var x := Concat(BlockTexts(s));
      var y := Concat(BlockTexts(inv));
      var z := Concat(BlockTexts(risk));
      assert WriteSections(data, SectionOrder) == Write(x) by {
        SectionsMatch(data, SectionOrder);
      }
      assert WriteDebate(data, InvestmentDebate) == Write(y) by {
        DebateMatches(data, InvestmentDebate);
      }
      assert WriteDebate(data, RiskDebate) == Write(z) by {
        DebateMatches(data, RiskDebate);
      }
      assert Concat(BlockTexts(BodyBlocks(state, date))) == x + y + z by {
        assert BodyBlocks(state, date) == s + inv + risk;
        ConcatBlocks3(s, inv, risk);
      }
      assert WriteBody(state, date) == Then(Write(x), Then(Write(y), Write(z)));
      ThenWrites(x, y, z);
    }
  }

  /**
   * On a state of the expected shape the writer never raises, and the file
   * holds exactly the blocks of the outline, one after the other.
   */
  lemma RenderMatchesOutline(stock: string, date: string, state: PyValue, decision: PyValue)
    requires WellShaped(state, date)
    ensures Render(stock, date, state, decision) == Write(Concat(BlockTexts(Outline(stock, date, state, decision))))
  {
    var body := BodyBlocks(state, date);
    var h := Header(stock, date);
    var m := Concat(BlockTexts(body));
    var f := Footer(Str(decision));
    assert Render(stock, date, state, decision) == Then(Write(h), Then(WriteBody(state, date), Write(f)));
    BodyMatches(state, date);
    ThenWrites(h, m, f);
    OutlineText(stock, date, state, decision);
  }

  lemma SingleBlockText(b: Block)
    ensures Concat(BlockTexts([b])) == BlockText(b)
  {
    assert BlockTexts([b]) == [BlockText(b)];
  }

  lemma OutlineText(stock: string, date: string, state: PyValue, decision: PyValue)
    requires WellShaped(state, date)
    ensures Concat(BlockTexts(Outline(stock, date, state, decision)))
         == Header(stock, date) + Concat(BlockTexts(BodyBlocks(state, date))) + Footer(Str(decision))
  {
    var head := [HeaderBlock(stock, date)];
    var tail := [DecisionBlock(Str(decision))];
    assert Outline(stock, date, state, decision) == head + BodyBlocks(state, date) + tail;
    ConcatBlocks3(head, BodyBlocks(state, date), tail);
    SingleBlockText(HeaderBlock(stock, date));
    SingleBlockText(DecisionBlock(Str(decision)));
  }

  // ---------------------------------------------------------------------------
  // Properties of the outline
  // ---------------------------------------------------------------------------

  /** What kind of block a block is, forgetting its text. */
  datatype Tag = HeaderTag | SectionTag(SectionKind) | DebateTag(DebateKind) | RawTag | DecisionTag

  function TagOf(b: Block): Tag {
    match b
    case HeaderBlock(_, _) => HeaderTag
    case SectionBlock(k, _) => SectionTag(k)
    case DebateBlock(k, _) => DebateTag(k)
    case RawBlock(_) => RawTag
    case DecisionBlock(_) => DecisionTag
  }

  function Tags(blocks: seq<Block>): seq<Tag> {
    seq(|blocks|, i requires 0 <= i < |blocks| => TagOf(blocks[i]))
  }

  function SpeakersOf(turns: seq<Turn>): seq<Speaker> {
    seq(|turns|, i requires 0 <= i < |turns| => turns[i].speaker)
  }

  lemma TagsAppend(a: seq<Block>, b: seq<Block>)
    ensures Tags(a + b) == Tags(a) + Tags(b)
  {
  }

  lemma SpeakersAppend(a: seq<Turn>, b: seq<Turn>)
    ensures SpeakersOf(a + b) == SpeakersOf(a) + SpeakersOf(b)
  {
  }

  lemma {:induction false} ShownSectionsRanked(d: map<string, PyValue>, kinds: seq<SectionKind>, lo: int)
    requires forall i :: 0 <= i < |kinds| ==> lo < SectionRank(kinds[i])
    requires forall i, j :: 0 <= i < j < |kinds| ==> SectionRank(kinds[i]) < SectionRank(kinds[j])
    ensures forall i :: 0 <= i < |ShownSections(d, kinds)| ==>
      ShownSections(d, kinds)[i].SectionBlock? && lo < SectionRank(ShownSections(d, kinds)[i].section)
    ensures forall i, j :: 0 <= i < j < |ShownSections(d, kinds)| ==>
      SectionRank(ShownSections(d, kinds)[i].section) < SectionRank(ShownSections(d, kinds)[j].section)
    decreases |kinds|
  {
    if |kinds| > 0 {
      ShownSectionsRanked(d, kinds[1..], SectionRank(kinds[0]));
    }
  }

  lemma {:induction false} PresentTurnsRanked(e: map<string, PyValue>, speakers: seq<Speaker>, lo: int)
    requires forall i :: 0 <= i < |speakers| ==> lo < SpeakerRank(speakers[i])
    requires forall i, j :: 0 <= i < j < |speakers| ==> SpeakerRank(speakers[i]) < SpeakerRank(speakers[j])
    ensures forall i :: 0 <= i < |PresentTurns(e, speakers)| ==> lo < SpeakerRank(PresentTurns(e, speakers)[i].speaker)
    ensures TurnsOrdered(PresentTurns(e, speakers))
    decreases |speakers|
  {
    if |speakers| > 0 {
      PresentTurnsRanked(e, speakers[1..], SpeakerRank(speakers[0]));
    }
  }

  predicate RanksIn(blocks: seq<Block>, lo: int, hi: int) {
    forall i :: 0 <= i < |blocks| ==> lo <= Rank(blocks[i]) < hi
  }

  lemma OrderedAppend(a: seq<Block>, b: seq<Block>, lo: int, mid: int, hi: int)
    requires lo <= mid <= hi
    requires Ordered(a) && RanksIn(a, lo, mid)
    requires Ordered(b) && RanksIn(b, mid, hi)
    ensures Ordered(a + b) && RanksIn(a + b, lo, hi)
  {
    var c := a + b;
    forall i | 0 <= i < |c|
      ensures lo <= Rank(c[i]) < hi
    {
      if i < |a| {
        assert c[i] == a[i];
      } else {
        assert c[i] == b[i - |a|];
      }
    }
    forall i, j | 0 <= i < j < |c|
      ensures Rank(c[i]) < Rank(c[j])
    {
      if j < |a| {
        assert c[i] == a[i] && c[j] == a[j];
      } else if i >= |a| {
        assert c[i] == b[i - |a|] && c[j] == b[j - |a|];
      } else {
        assert c[i] == a[i] && c[j] == b[j - |a|];
      }
    }
    forall i | 0 <= i < |c| && c[i].DebateBlock?
      ensures TurnsOrdered(c[i].turns)
    {
      if i < |a| {
        assert c[i] == a[i];
      } else {
        assert c[i] == b[i - |a|];
      }
    }
  }

  lemma DebateBlocksOrdered(d: map<string, PyValue>, k: DebateKind)
    requires DebateShaped(d, k)
    ensures Ordered(DebateBlocks(d, k))
    ensures RanksIn(DebateBlocks(d, k), if k == InvestmentDebate then 5 else 6, if k == InvestmentDebate then 6 else 7)
  {
    if DebateKey(k) in d {
      PresentTurnsRanked(d[DebateKey(k)].entries, Speakers(k), -1);
    }
  }

  lemma SectionsOrdered(d: map<string, PyValue>)
    ensures Ordered(ShownSections(d, SectionOrder)) && RanksIn(ShownSections(d, SectionOrder), 1, 5)
  {
    assert forall i :: 0 <= i < |SectionOrder| ==> SectionRank(SectionOrder[i]) == i;
    SectionsOrderedIn(d, SectionOrder);
  }

  lemma SectionsOrderedIn(d: map<string, PyValue>, kinds: seq<SectionKind>)
    requires forall i, j :: 0 <= i < j < |kinds| ==> SectionRank(kinds[i]) < SectionRank(kinds[j])
    ensures Ordered(ShownSections(d, kinds)) && RanksIn(ShownSections(d, kinds), 1, 5)
  {
    ShownSectionsRanked(d, kinds, -1);
    var s := ShownSections(d, kinds);
    forall i | 0 <= i < |s|
      ensures 1 <= Rank(s[i]) < 5 && !s[i].DebateBlock?
    {
    }
  }

  /** The blocks of a mapping's data: sections, then the investment debate, then the risk debate. */
  lemma MappingBlocksOrdered(d: map<string, PyValue>)
    requires DebateShaped(d, InvestmentDebate) && DebateShaped(d, RiskDebate)
    ensures var all := ShownSections(d, SectionOrder) + DebateBlocks(d, InvestmentDebate) + DebateBlocks(d, RiskDebate);
      RanksIn(all, 1, 7) && Ordered(all)
  {
    var s := ShownSections(d, SectionOrder);
    var inv := DebateBlocks(d, InvestmentDebate);
    var risk := DebateBlocks(d, RiskDebate);
    SectionsOrdered(d);
    DebateBlocksOrdered(d, InvestmentDebate);
    DebateBlocksOrdered(d, RiskDebate);
    OrderedAppend(s, inv, 1, 5, 6);
    OrderedAppend(s + inv, risk, 1, 6, 7);
  }

  /** Body blocks sit strictly between the header (rank 0) and the decision (rank 7), in increasing rank. */
  lemma BodyOrdered(state: PyValue, date: string)
    requires WellShaped(state, date)
    ensures RanksIn(BodyBlocks(state, date), 1, 7)
    ensures Ordered(BodyBlocks(state, date))
  {
    if state.PyDict? {
      MappingBlocksOrdered(StateData(state, date).entries);
    }
  }

  /**
   * The report always opens with the header and closes with the decision; in
   * between, blocks follow the fixed order market, fundamentals, news,
   * sentiment, investment debate, risk debate, each at most once, and the
   * speakers of each debate follow their fixed order.
   */
  lemma OutlineOrdered(stock: string, date: string, state: PyValue, decision: PyValue)
    requires WellShaped(state, date)
    ensures var o := Outline(stock, date, state, decision);
      && |o| >= 2
      && o[0] == HeaderBlock(stock, date)
      && o[|o| - 1] == DecisionBlock(Str(decision))
      && Ordered(o)
  {
    var body := BodyBlocks(state, date);
    var o := Outline(stock, date, state, decision);
    assert o == [HeaderBlock(stock, date)] + body + [DecisionBlock(Str(decision))];
    BodyOrdered(state, date);
    OrderedAppend([HeaderBlock(stock, date)], body, 0, 1, 7);
    OrderedAppend([HeaderBlock(stock, date)] + body, [DecisionBlock(Str(decision))], 0, 7, 8);
  }

  lemma {:induction false} ShownSectionsIff(d: map<string, PyValue>, kinds: seq<SectionKind>, k: SectionKind)
    ensures SectionTag(k) in Tags(ShownSections(d, kinds)) <==> k in kinds && Shown(d, k)
    ensures k in kinds && Shown(d, k) ==> SectionBlock(k, Str(d[SectionKey(k)])) in ShownSections(d, kinds)
    ensures forall t :: t in Tags(ShownSections(d, kinds)) ==> t.SectionTag?
    decreases |kinds|
  {
    if |kinds| > 0 {
      ShownSectionsIff(d, kinds[1..], k);
      var head := if Shown(d, kinds[0]) then [SectionBlock(kinds[0], Str(d[SectionKey(kinds[0])]))] else [];
      var rest := ShownSections(d, kinds[1..]);
      assert ShownSections(d, kinds) == head + rest;
      TagsAppend(head, rest);
      assert Tags(head) == if Shown(d, kinds[0]) then [SectionTag(kinds[0])] else [];
      assert kinds == [kinds[0]] + kinds[1..];
    }
  }

  lemma {:induction false} PresentTurnsIff(e: map<string, PyValue>, speakers: seq<Speaker>, s: Speaker)
    ensures s in SpeakersOf(PresentTurns(e, speakers)) <==> s in speakers && SpeakerKey(s) in e
    ensures s in speakers && SpeakerKey(s) in e ==> Turn(s, Str(e[SpeakerKey(s)])) in PresentTurns(e, speakers)
    decreases |speakers|
  {
    if |speakers| > 0 {
      PresentTurnsIff(e, speakers[1..], s);
      var head := if SpeakerKey(speakers[0]) in e then [Turn(speakers[0], Str(e[SpeakerKey(speakers[0])]))] else [];
      var rest := PresentTurns(e, speakers[1..]);
      assert PresentTurns(e, speakers) == head + rest;
      SpeakersAppend(head, rest);
      assert SpeakersOf(head) == if SpeakerKey(speakers[0]) in e then [speakers[0]] else [];
      assert speakers == [speakers[0]] + speakers[1..];
    }
  }

  lemma OutlineTags(stock: string, date: string, state: PyValue, decision: PyValue)
    requires WellShaped(state, date)
    ensures Outline(stock, date, state, decision)
         == [HeaderBlock(stock, date)] + BodyBlocks(state, date) + [DecisionBlock(Str(decision))]
    ensures Tags(Outline(stock, date, state, decision)) == [HeaderTag] + Tags(BodyBlocks(state, date)) + [DecisionTag]
  {
    var head := [HeaderBlock(stock, date)];
    var body := BodyBlocks(state, date);
    var tail := [DecisionBlock(Str(decision))];
    TagsAppend(head + body, tail);
    TagsAppend(head, body);
    assert Tags(head) == [HeaderTag];
    assert Tags(tail) == [DecisionTag];
  }

  lemma MappingBodyTags(state: PyValue, date: string)
    requires WellShaped(state, date) && state.PyDict?
    ensures var d := StateData(state, date).entries;
      Tags(BodyBlocks(state, date))
        == Tags(ShownSections(d, SectionOrder)) + Tags(DebateBlocks(d, InvestmentDebate)) + Tags(DebateBlocks(d, RiskDebate))
  {
    var d := StateData(state, date).entries;
    var secs := ShownSections(d, SectionOrder);
    var inv := DebateBlocks(d, InvestmentDebate);
    var risk := DebateBlocks(d, RiskDebate);
    TagsAppend(secs + inv, risk);
    TagsAppend(secs, inv);
  }

  lemma DebateBlocksTags(d: map<string, PyValue>, k: DebateKind)
    requires DebateShaped(d, k)
    ensures Tags(DebateBlocks(d, k)) == if DebateKey(k) in d then [DebateTag(k)] else []
  {
  }

  /** The raw dump replaces everything between header and decision exactly when the state is not a mapping. */
  lemma OutlineRawIff(stock: string, date: string, state: PyValue, decision: PyValue)
    requires WellShaped(state, date)
    ensures !state.PyDict? ==>
      Outline(stock, date, state, decision) == [HeaderBlock(stock, date), RawBlock(Str(state)), DecisionBlock(Str(decision))]
    ensures RawTag in Tags(Outline(stock, date, state, decision)) <==> !state.PyDict?
  {
    if state.PyDict? {
      var d := StateData(state, date).entries;
      OutlineTagMembers(stock, date, state, decision, RawTag);
      ShownSectionsIff(d, SectionOrder, Market);
      DebateBlocksTags(d, InvestmentDebate);
      DebateBlocksTags(d, RiskDebate);
    } else {
      OutlineTags(stock, date, state, decision);
      assert Tags(BodyBlocks(state, date)) == [RawTag];
    }
  }

  /** Which tags the outline holds, part by part. */
  lemma OutlineTagMembers(stock: string, date: string, state: PyValue, decision: PyValue, t: Tag)
    requires WellShaped(state, date) && state.PyDict?
    ensures var d := StateData(state, date).entries;
      (t in Tags(Outline(stock, date, state, decision))
       <==> || t == HeaderTag || t == DecisionTag
            || t in Tags(ShownSections(d, SectionOrder))
            || t in Tags(DebateBlocks(d, InvestmentDebate))
            || t in Tags(DebateBlocks(d, RiskDebate)))
  {
    OutlineTags(stock, date, state, decision);
    MappingBodyTags(state, date);
  }

  /** A block of one of the three body parts is a block of the outline. */
  lemma OutlineBlockMember(stock: string, date: string, state: PyValue, decision: PyValue, b: Block)
    requires WellShaped(state, date) && state.PyDict?
    requires var d := StateData(state, date).entries;
      || b in ShownSections(d, SectionOrder)
      || b in DebateBlocks(d, InvestmentDebate)
      || b in DebateBlocks(d, RiskDebate)
    ensures b in Outline(stock, date, state, decision)
  {
    var d := StateData(state, date).entries;
    var body := BodyBlocks(state, date);
    assert body == ShownSections(d, SectionOrder) + DebateBlocks(d, InvestmentDebate) + DebateBlocks(d, RiskDebate);
    OutlineTags(stock, date, state, decision);
  }

  /** An analyst section appears exactly when the state is a mapping whose data holds a truthy value for it. */
  lemma OutlineSectionIff(stock: string, date: string, state: PyValue, decision: PyValue, k: SectionKind)
    requires WellShaped(state, date)
    ensures SectionTag(k) in Tags(Outline(stock, date, state, decision))
        <==> state.PyDict? && Shown(StateData(state, date).entries, k)
    ensures state.PyDict? && Shown(StateData(state, date).entries, k) ==>
      SectionBlock(k, Str(StateData(state, date).entries[SectionKey(k)])) in Outline(stock, date, state, decision)
  {
    if state.PyDict? {
      var d := StateData(state, date).entries;
      OutlineTagMembers(stock, date, state, decision, SectionTag(k));
      ShownSectionsIff(d, SectionOrder, k);
      DebateBlocksTags(d, InvestmentDebate);
      DebateBlocksTags(d, RiskDebate);
      assert k in SectionOrder;
      if Shown(d, k) {
        OutlineBlockMember(stock, date, state, decision, SectionBlock(k, Str(d[SectionKey(k)])));
      }
    } else {
      OutlineTags(stock, date, state, decision);
    }
  }

  /**
   * A debate block appears exactly when its key is present, even with no
   * sub-fields; a speaker appears in it exactly when the speaker's key is present.
   */
  lemma OutlineDebateIff(stock: string, date: string, state: PyValue, decision: PyValue, g: DebateKind, s: Speaker)
    requires WellShaped(state, date)
    ensures DebateTag(g) in Tags(Outline(stock, date, state, decision))
        <==> state.PyDict? && DebateKey(g) in StateData(state, date).entries
    ensures state.PyDict? && DebateKey(g) in StateData(state, date).entries ==>
      var e := StateData(state, date).entries[DebateKey(g)].entries;
      && DebateBlock(g, PresentTurns(e, Speakers(g))) in Outline(stock, date, state, decision)
      && (s in SpeakersOf(PresentTurns(e, Speakers(g))) <==> s in Speakers(g) && SpeakerKey(s) in e)
  {
    if state.PyDict? {
      var d := StateData(state, date).entries;
      OutlineTagMembers(stock, date, state, decision, DebateTag(g));
      ShownSectionsIff(d, SectionOrder, Market);
      DebateBlocksTags(d, InvestmentDebate);
      DebateBlocksTags(d, RiskDebate);
      if DebateKey(g) in d {
        var e := d[DebateKey(g)].entries;
        PresentTurnsIff(e, Speakers(g), s);
        assert DebateBlock(g, PresentTurns(e, Speakers(g))) in DebateBlocks(d, g);
        OutlineBlockMember(stock, date, state, decision, DebateBlock(g, PresentTurns(e, Speakers(g))));
      }
    } else {
      OutlineTags(stock, date, state, decision);
    }
  }

  /**
   * A state that is a mapping whose (unwrapped) data is `None` or a number:
   * the first membership test raises, so the file keeps only the header.
   */
  lemma ScalarDataStopsAfterHeader(stock: string, date: string, state: PyValue, decision: PyValue)
    requires state.PyDict? && StateData(state, date).PyScalar?
    ensures Render(stock, date, state, decision)
      == Output(Header(stock, date),
                Some(PyException("TypeError", "argument of type '" + StateData(state, date).typeName + "' is not iterable")))
  {
  }
}
