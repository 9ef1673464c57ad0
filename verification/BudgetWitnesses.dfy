/** Concrete turns on which admission and maintenance disagree. Every passage involved can
    be chunked unless that is the point, so admission promises preparation each time. */
module BudgetWitnesses {
  import opened Basics
  import opened Custody
  import opened Sessions
  import opened ContextBudget
  import opened Summaries
  import opened Chunking
  import opened MergeTrees
  import opened Admission
  import opened Maintenance

  /** One token per character, no margin. */
  const CHARACTERS := Counter((s: string) => |s|, 1.0)

  function Text(n: nat): (s: string)
    ensures |s| == n
  {
    seq(n, i => 'a')
  }

  /** One exchange of 1500 and 1505 tokens. */
  function Tale(): seq<Message> {
    [Message(0, User, Text(1490), None), Message(1, Assistant, Text(1490), None)]
  }

  /** An application budget of 4000 tokens, of which 1333 are lookahead. */
  const SMALL := Policy(true, 8000, 4000, 1000, 2640, 2000, 0.75)

  const SHORT_PROMPT := "Go"
  const LONG_PROMPT := "Please go on with it."

  lemma Exactly(n: nat)
    ensures Scaled(n, 1.0) == n
  {
  }

  lemma CountOne(m: Prompt)
    ensures Count(CHARACTERS, [m]) == |RoleText(m.role)| + |m.content| + 6
  {
    hide Scaled;
    assert Raw(CHARACTERS, [m]) == Cost(CHARACTERS, m) + Raw(CHARACTERS, []);
    Exactly(Raw(CHARACTERS, [m]));
  }

  lemma CountTwo(m: Prompt, n: Prompt)
    ensures Count(CHARACTERS, [m, n]) == Count(CHARACTERS, [m]) + Count(CHARACTERS, [n])
  {
    hide Scaled;
    RawAppend(CHARACTERS, [m], [n]);
    assert [m] + [n] == [m, n];
    Exactly(Raw(CHARACTERS, [m]));
    Exactly(Raw(CHARACTERS, [n]));
    Exactly(Raw(CHARACTERS, [m, n]));
  }

  lemma CountAppend(ms: seq<Prompt>, n: Prompt)
    ensures Count(CHARACTERS, ms + [n]) == Count(CHARACTERS, ms) + Count(CHARACTERS, [n])
  {
    hide Scaled;
    RawAppend(CHARACTERS, ms, [n]);
    Exactly(Raw(CHARACTERS, ms));
    Exactly(Raw(CHARACTERS, [n]));
    Exactly(Raw(CHARACTERS, ms + [n]));
  }

  lemma PromptCost(pending: string)
    ensures Count(CHARACTERS, [] + [Pending(pending)]) == 4 + |pending| + 6
  {
    assert [] + [Pending(pending)] == [Pending(pending)];
    CountOne(Pending(pending));
  }

  // ---------- A short prompt ----------

  /** No proper part of the exchange fits the allowance, so all of it must be summarised. */
  lemma TalePlan(pending: string, p: Policy)
    requires Application(p) == 4000 && 0 <= 2667 - p.summaryMax - (|pending| + 10) < 1505
    ensures Plan(Tale(), [], pending, p, CHARACTERS, Lookahead(p)) == Some(2)
  {
    hide Count;
    var ms := Tale();
    var a := Allowance([], pending, p, CHARACTERS, Lookahead(p));
    PromptCost(pending);
    TaleCosts();
    assert ms[0..] == ms && ms[2..] == [];
    assert AsPrompts(ms[2..]) == [];
    assert !Suffices(ms, 0, a, CHARACTERS) && !Suffices(ms, 1, a, CHARACTERS);
    assert LeastFrom(ms, 2, a, CHARACTERS) == 2;
    assert LeastFrom(ms, 1, a, CHARACTERS) == 2;
  }

  lemma TaleCosts()
    ensures Count(CHARACTERS, AsPrompts(Tale())) == 3005
    ensures !HasOversized(Tale()[..2], SMALL, CHARACTERS) && Tale()[..2] == Tale()
  {
    hide Count;
    var m, n := Prompt(User, Text(1490)), Prompt(Assistant, Text(1490));
    CountOne(m);
    CountOne(n);
    CountTwo(m, n);
    assert AsPrompts(Tale()) == [m, n];
    assert AsPrompts([Tale()[0]]) == [m] && AsPrompts([Tale()[1]]) == [n];
  }

  lemma TaleFull(pending: string)
    ensures Count(CHARACTERS, [] + AsPrompts(Tale()) + [Pending(pending)]) > 2667
  {
    hide Count;
    TaleCosts();
    assert [] + AsPrompts(Tale()) == AsPrompts(Tale());
    CountAppend(AsPrompts(Tale()), Pending(pending));
    CountOne(Pending(pending));
  }

  /** A two-letter prompt is told that preparation is in progress, while maintenance
      refuses to prepare it. */
  lemma ShortPromptRefused()
    ensures ValidPolicy(SMALL) && ValidCounter(CHARACTERS)
    ensures Admit(Tale(), [], SHORT_PROMPT, SMALL, CHARACTERS, None) == NeedsMaintenance(2)
    ensures Select(Tale(), [], SMALL, CHARACTERS, Some(2), None) == Impossible
  {
    hide Count, HasOversized, Plan;
    TalePlan(SHORT_PROMPT, SMALL);
    TaleFull(SHORT_PROMPT);
    TaleCosts();
    PromptCost(PLACEHOLDER_PROMPT);
    PlanGives(Tale(), [], PLACEHOLDER_PROMPT, SMALL, CHARACTERS, Lookahead(SMALL));
  }

  // ---------- A rendering beyond the allotment ----------

  /** Room for a summary of 2600 tokens, and chunks that hold the whole exchange. */
  const ROOMY := SMALL.(summaryMax := 2600, chunk := 4000)

  const FACTS := Sections([Fact(Text(1200), [0]), Fact(Text(1200), [1])])

  /** The reply is the facts as data, and rendering puts a heading around that data. */
  const REPLY := Text(2500)
  const HEADED := Text(200) + REPLY

  const WRITER := Model(
    (n: nat) => Replied(REPLY),
    (s: string) => if s == REPLY then Some(FACTS) else None,
    (s: Sections) => HEADED,
    (ms: seq<Message>) => 3500,
    (ns: seq<Node>, mode: Mode) => 3500)

  function Made(session: SessionId, context: Name, revision: nat): Summary {
    Summary(SourceFor(session, context, revision, Tale()), FACTS, WRITER.render(FACTS))
  }

  /** The reply passes every check on the one leaf of the exchange, and the summary made of
      it covers the exchange and loads; but it renders to more than the raw reply, so the
      turn is promised again and maintenance has nothing left to do. */
  lemma LongRenderingStuck(session: SessionId, context: Name, revision: nat)
    ensures ValidPolicy(ROOMY) && ValidCounter(CHARACTERS)
    ensures Chunks(Tale(), CHARACTERS, ROOMY.chunk) == [Tale()]
    ensures CheckLeaf(REPLY, Tale(), ROOMY, CHARACTERS, WRITER) == Ok(FACTS)
    ensures var made := Made(session, context, revision);
            && EvidenceCovered(made) && Loads(made, session, context, Tale())
            && Admit(Tale(), [], LONG_PROMPT, ROOMY, CHARACTERS, None) == NeedsMaintenance(2)
            && Admit(Tale(), [], LONG_PROMPT, ROOMY, CHARACTERS, Some(made)) == NeedsMaintenance(2)
            && Select(Tale(), [], ROOMY, CHARACTERS, Some(2), Some(made)) == AlreadyCovered
  {
    hide Count, HasOversized, Plan, Chunks, CheckLeaf, Loads, EvidenceCovered;
    var made := Made(session, context, revision);
    TalePlan(LONG_PROMPT, ROOMY);
    TalePlan(PLACEHOLDER_PROMPT, ROOMY);
    TaleFull(LONG_PROMPT);
    RoomyChunks();
    ReplyAccepted(session, context, revision);
    assert Tale()[..2] == Tale();
    assert Tale()[..|Tale()|] == Tale();
    FreshLoads(session, context, revision, Tale(), 2, FACTS, HEADED);
    assert Compacted(Tale(), [], LONG_PROMPT, made) == [Rendered(made), Pending(LONG_PROMPT)];
    CountOne(Rendered(made));
    CountOne(Pending(LONG_PROMPT));
    CountTwo(Rendered(made), Pending(LONG_PROMPT));
    StuckExactlyWhen(Tale(), [], LONG_PROMPT, ROOMY, CHARACTERS, None, made);
  }

  lemma RoomyChunks()
    ensures Chunks(Tale(), CHARACTERS, ROOMY.chunk) == [Tale()]
    ensures !HasOversized(Tale(), ROOMY, CHARACTERS)
  {
    hide Count;
    var ms := Tale();
    TaleCosts();
    assert ms[..1][..0] == [] && ms[..1][0] == ms[0];
    assert [] + [ms[0]] == ms[..1] && ms[..1] + [ms[1]] == ms;
    assert Packed([], CHARACTERS, ROOMY.chunk) == Packing([], []);
    assert Packed(ms[..1], CHARACTERS, ROOMY.chunk) == Packing([], ms[..1]);
    assert forall i | 0 <= i < 2 :: !Oversized(CHARACTERS, SMALL.chunk, ms[..2][i]);
  }

  lemma ReplyAccepted(session: SessionId, context: Name, revision: nat)
    ensures CheckLeaf(REPLY, Tale(), ROOMY, CHARACTERS, WRITER) == Ok(FACTS)
    ensures EvidenceCovered(Made(session, context, revision))
  {
    Exactly(2500);
    assert Ids(Tale())[0] == 0 && Ids(Tale())[1] == 1;
    assert forall m | m in EvidenceIds(FACTS) :: m == 0 || m == 1;
  }

  // ---------- A passage beyond the required coverage ----------

  /** An application budget of 8000 tokens, of which 2666 are lookahead. */
  const WIDE := Policy(true, 12000, 4000, 1000, 1000, 2000, 0.75)

  /** A passage of 1500 tokens, then one of 4310 that no chunk can hold. */
  function LongTale(): seq<Message> {
    [Message(0, User, Text(1490), None), Message(1, User, Text(4300), None)]
  }

  /** Admission asks for the first passage only and promises it; the dearer placeholder
      makes maintenance select both, and the second can never be chunked. */
  lemma PromisedButUnchunkable()
    ensures ValidPolicy(WIDE) && ValidCounter(CHARACTERS)
    ensures Admit(LongTale(), [], SHORT_PROMPT, WIDE, CHARACTERS, None) == NeedsMaintenance(1)
    ensures Select(LongTale(), [], WIDE, CHARACTERS, Some(1), None) == Summarise(2)
    ensures HasOversized(LongTale()[..2], WIDE, CHARACTERS)
  {
    hide Count, HasOversized, Plan;
    LongTaleCosts();
    LongTalePlan(SHORT_PROMPT, 1);
    LongTalePlan(PLACEHOLDER_PROMPT, 2);
    assert [] + AsPrompts(LongTale()) == AsPrompts(LongTale());
    CountAppend(AsPrompts(LongTale()), Pending(SHORT_PROMPT));
    CountOne(Pending(SHORT_PROMPT));
  }

  lemma LongTaleCosts()
    ensures Count(CHARACTERS, AsPrompts(LongTale())) == 5810
    ensures Count(CHARACTERS, AsPrompts(LongTale()[1..])) == 4310
    ensures !HasOversized(LongTale()[..1], WIDE, CHARACTERS) && HasOversized(LongTale()[..2], WIDE, CHARACTERS)
  {
    hide Count;
    var ms := LongTale();
    var m, n := Prompt(User, Text(1490)), Prompt(User, Text(4300));
    CountOne(m);
    CountOne(n);
    CountTwo(m, n);
    assert AsPrompts(ms) == [m, n] && AsPrompts(ms[1..]) == [n];
    assert AsPrompts([ms[0]]) == [m] && AsPrompts([ms[1]]) == [n];
    assert ms[..2][1] == ms[1];
    assert Oversized(CHARACTERS, WIDE.chunk, ms[..2][1]);
  }

  lemma LongTalePlan(pending: string, n: nat)
    requires (n == 1 && |pending| + 10 <= 24) || (n == 2 && 24 < |pending| + 10 <= 4334)
    ensures Plan(LongTale(), [], pending, WIDE, CHARACTERS, Lookahead(WIDE)) == Some(n)
  {
    hide Count;
    var ms := LongTale();
    var a := Allowance([], pending, WIDE, CHARACTERS, Lookahead(WIDE));
    PromptCost(pending);
    LongTaleCosts();
    assert ms[0..] == ms;
    assert !Suffices(ms, 0, a, CHARACTERS);
    assert LeastFrom(ms, 2, a, CHARACTERS) == 2;
    assert LeastFrom(ms, 1, a, CHARACTERS) == n;
  }
}
