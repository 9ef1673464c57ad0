/** Admitting a turn: composing the context that is sent, and the planning that must
    agree with it. */
module Admission {
  import opened Basics
  import opened Custody
  import opened Sessions
  import opened ContextBudget
  import opened Summaries
  import opened Chunking
  import A = Acceptance

  datatype Outcome =
    | Ready(messages: seq<Prompt>, predicted: int, summarized: nat, compacted: bool)
    | NeedsMaintenance(required: nat)
    | TooLarge

  function Rendered(s: Summary): Prompt {
    Prompt(System, s.text)
  }

  /** The coverage a fresh plan would need, measured only when blocking. */
  function Requirement(ms: seq<Message>, fixed: seq<Prompt>, pending: string, p: Policy, c: Counter,
      reserve: int): Outcome {
    match Plan(ms, fixed, pending, p, c, reserve)
    case None => TooLarge
    case Some(r) => NeedsMaintenance(r)
  }

  function Compacted(ms: seq<Message>, fixed: seq<Prompt>, pending: string, s: Summary): seq<Prompt>
    requires |s.source.covered| <= |ms|
  {
    fixed + [Rendered(s)] + AsPrompts(ms[|s.source.covered|..]) + [Pending(pending)]
  }

  /** The whole history if it fits, else the summary in hand, else a requirement. */
  function Build(ms: seq<Message>, fixed: seq<Prompt>, pending: string, p: Policy, c: Counter,
                 summary: Option<Summary>, reserve: int): Outcome
  {
    var full := fixed + AsPrompts(ms) + [Pending(pending)];
    var limit := Application(p) - reserve;
    if limit < 0 then TooLarge
    else if Count(c, full) <= limit then Ready(full, Count(c, full) + p.overhead, 0, false)
    else if summary.Some? && |summary.value.source.covered| <= |ms|
            && Count(c, Compacted(ms, fixed, pending, summary.value)) <= limit then
      var bounded := Compacted(ms, fixed, pending, summary.value);
      Ready(bounded, Count(c, bounded) + p.overhead, |summary.value.source.covered|, true)
    else Requirement(ms, fixed, pending, p, c, reserve)
  }

  // ---------- Composition ----------

  /** Fixed blocks, the summary if one is used, recent history and the prompt, in that
      order; what the summary covers and the recent history make up the whole history. */
  lemma BuildComposes(ms: seq<Message>, fixed: seq<Prompt>, pending: string, p: Policy, c: Counter,
                      summary: Option<Summary>, reserve: int, session: SessionId, context: Name)
    requires summary.Some? ==> Loads(summary.value, session, context, ms)
    ensures var r := Build(ms, fixed, pending, p, c, summary, reserve);
            r.Ready? ==>
              exists recent ::
                && r.messages == fixed + (if r.compacted then [Rendered(summary.value)] else [])
                                 + AsPrompts(recent) + [Pending(pending)]
                && (if r.compacted then summary.Some? && summary.value.source.digest + Lines(recent) == Lines(ms)
                    else recent == ms)
  {
    var r := Build(ms, fixed, pending, p, c, summary, reserve);
    if r.Ready? {
      if r.compacted {
        LoadedCoversPrefix(summary.value, session, context, ms);
        var k := |summary.value.source.covered|;
        assert Lines(ms[..k]) + Lines(ms[k..]) == Lines(ms);
        assert r.messages == fixed + [Rendered(summary.value)] + AsPrompts(ms[k..]) + [Pending(pending)];
      } else {
        assert r.messages == fixed + [] + AsPrompts(ms) + [Pending(pending)];
      }
    }
  }

  /** End to end: the predicted provider tokens, the maintenance lookahead and the output
      reserve together fit the model's window and the project's target. */
  lemma WindowBound(ms: seq<Message>, fixed: seq<Prompt>, pending: string, stored: Policy, window: Option<nat>,
      c: Counter,
                    summary: Option<Summary>)
    requires ValidPolicy(stored) && EffectivePolicy(stored, window).Some?
    ensures var q := EffectivePolicy(stored, window).value;
            var r := Build(ms, fixed, pending, q, c, summary, Lookahead(q));
            r.Ready? ==>
              && r.predicted == Count(c, r.messages) + stored.overhead
              && r.predicted + Lookahead(q) <= stored.target
              && (window.Some? ==> r.predicted + Lookahead(q) + stored.outputReserve <= window.value)
              && 1333 <= Lookahead(q) <= 12000
  {
    EffectivePolicyFits(stored, window);
  }

  /** The history as it is sent, message by message. */
  ghost predicate SentAs(sent: seq<Prompt>, ms: seq<Message>) {
    |sent| == |ms| && forall i | 0 <= i < |ms| :: sent[i] == Prompt(ms[i].role, ms[i].content)
  }

  /** A context that fits is sent whole, whatever summary is in hand. */
  lemma FullHistoryPreferred(ms: seq<Message>, fixed: seq<Prompt>, pending: string, p: Policy, c: Counter,
      summary: Option<Summary>, reserve: int, sent: seq<Prompt>)
    requires SentAs(sent, ms)
    requires 0 <= p.target - p.overhead - reserve
    requires Count(c, fixed + sent + [Prompt(User, pending)]) <= p.target - p.overhead - reserve
    ensures var whole := fixed + sent + [Prompt(User, pending)];
            Build(ms, fixed, pending, p, c, summary, reserve) == Ready(whole, Count(c, whole) + p.overhead, 0, false)
  {
    hide Count;
    assert sent == AsPrompts(ms);
  }

  /** The summary stands in for the prefix it covers exactly when the whole does not fit and
      the shorter context does; the outcome is then that context. */
  lemma CompactedExactlyWhen(ms: seq<Message>, fixed: seq<Prompt>, pending: string, p: Policy, c: Counter,
      summary: Option<Summary>, reserve: int, sent: seq<Prompt>)
    requires SentAs(sent, ms)
    ensures var limit := p.target - p.overhead - reserve;
            var outcome := Build(ms, fixed, pending, p, c, summary, reserve);
            var k := if summary.Some? then |summary.value.source.covered| else |ms| + 1;
            var short := if k <= |ms| then
                fixed + [Prompt(System, summary.value.text)] + sent[k..] + [Prompt(User, pending)] else [];
            && (outcome.Ready? && outcome.compacted <==>
                  && 0 <= limit < Count(c, fixed + sent + [Prompt(User, pending)])
                  && k <= |ms| && Count(c, short) <= limit)
            && (outcome.Ready? && outcome.compacted ==> outcome == Ready(short, Count(c, short) + p.overhead, k, true))
  {
    hide Count;
    assert sent == AsPrompts(ms);
    if summary.Some? && |summary.value.source.covered| <= |ms| {
      assert AsPrompts(ms[|summary.value.source.covered|..]) == sent[|summary.value.source.covered|..];
    }
  }

  /** What does not fit either way is refused exactly when the mandatory part leaves no room
      for a summary, and otherwise asks for the least prefix that may be summarised. */
  lemma BlockedExactlyWhen(ms: seq<Message>, fixed: seq<Prompt>, pending: string, p: Policy, c: Counter,
      summary: Option<Summary>, reserve: int)
    requires ValidCounter(c) && !Build(ms, fixed, pending, p, c, summary, reserve).Ready?
    ensures var room := p.target - p.overhead - reserve;
            var outcome := Build(ms, fixed, pending, p, c, summary, reserve);
            && (outcome.TooLarge? <==> room < 0 || room < Count(c, fixed + [Prompt(User, pending)]) + p.summaryMax)
            && (outcome.NeedsMaintenance? ==>
                  && MayCut(ms, outcome.required, fixed, pending, p, c, reserve)
                  && forall b: nat | b < outcome.required :: !MayCut(ms, b, fixed, pending, p, c, reserve))
  {
    hide Count, MayCut;
    PlanExactly(ms, fixed, pending, p, c, reserve);
  }

  // ---------- Planner and admission agree ----------

  lemma FullCost(c: Counter, fixed: seq<Prompt>, middle: seq<Prompt>, last: Prompt)
    requires ValidCounter(c)
    ensures Count(c, fixed + middle + [last]) <= Count(c, fixed + [last]) + Count(c, middle)
  {
    hide Scaled;
    RawAppend(c, fixed + middle, [last]);
    RawAppend(c, fixed, middle);
    RawAppend(c, fixed, [last]);
    ScaledSum(Raw(c, fixed + [last]), Raw(c, middle), c.safety);
  }

  /** No wedge: what the planner asks for is enough. Any loaded summary that covers at
      least the planned prefix and renders within its allotment is admitted, despite
      rounding each part up under a real margin. */
  lemma NoWedge(ms: seq<Message>, fixed: seq<Prompt>, pending: string, p: Policy, c: Counter, s: Summary, reserve: int)
    requires ValidCounter(c) && |s.source.covered| <= |ms|
    requires Plan(ms, fixed, pending, p, c, reserve).Some?
    requires |s.source.covered| >= Plan(ms, fixed, pending, p, c, reserve).value
    requires Count(c, [Rendered(s)]) <= p.summaryMax
    ensures Build(ms, fixed, pending, p, c, Some(s), reserve).Ready?
  {
    hide Count, Suffices, Requirement;
    var r, k := Plan(ms, fixed, pending, p, c, reserve).value, |s.source.covered|;
    var recent := AsPrompts(ms[k..]);
    PlanGives(ms, fixed, pending, p, c, reserve);
    SuffixCheaper(c, ms, r, k);
    FullCost(c, fixed, [Rendered(s)] + recent, Pending(pending));
    assert fixed + ([Rendered(s)] + recent) + [Pending(pending)] == Compacted(ms, fixed, pending, s);
    CountSubadditive(c, [Rendered(s)], recent);
    CountSubadditive(c, fixed + [Pending(pending)], []);
  }

  lemma PlanGives(ms: seq<Message>, fixed: seq<Prompt>, pending: string, p: Policy, c: Counter, reserve: int)
    requires ValidCounter(c)
    ensures var a := Allowance(fixed, pending, p, c, reserve);
            var plan := Plan(ms, fixed, pending, p, c, reserve);
            && (plan.None? <==> a < 0)
            && (plan.Some? ==> Count(c, AsPrompts(ms[plan.value..])) <= a)
  {
    PlanIsLeast(ms, fixed, pending, p, c, reserve);
  }

  /** A blocked turn always asks for some coverage, at most the whole history, and more
      than the summary in hand gives unless that one renders beyond its allotment. */
  lemma BlockedAsksForMore(ms: seq<Message>, fixed: seq<Prompt>, pending: string, p: Policy, c: Counter,
                           summary: Option<Summary>, reserve: int)
    requires ValidCounter(c)
    requires Build(ms, fixed, pending, p, c, summary, reserve).NeedsMaintenance?
    ensures var required := Build(ms, fixed, pending, p, c, summary, reserve).required;
            && Plan(ms, fixed, pending, p, c, reserve) == Some(required)
            && 1 <= required <= |ms|
            && (summary.Some? && required <= |summary.value.source.covered| <= |ms| ==>
                  Count(c, [Rendered(summary.value)]) > p.summaryMax)
  {
    hide Count, Suffices, Plan;
    var required := Build(ms, fixed, pending, p, c, summary, reserve).required;
    assert required <= |ms| by { PlanInside(ms, fixed, pending, p, c, reserve); }
    PlanGives(ms, fixed, pending, p, c, reserve);
    if required == 0 {
      assert ms[0..] == ms;
      FullCost(c, fixed, AsPrompts(ms), Pending(pending));
      assert false;
    }
    if summary.Some? && required <= |summary.value.source.covered| <= |ms|
        && Count(c, [Rendered(summary.value)]) <= p.summaryMax {
      NoWedge(ms, fixed, pending, p, c, summary.value, reserve);
    }
  }

  lemma PlanInside(ms: seq<Message>, fixed: seq<Prompt>, pending: string, p: Policy, c: Counter, reserve: int)
    ensures Plan(ms, fixed, pending, p, c, reserve).Some? ==> Plan(ms, fixed, pending, p, c, reserve).value <= |ms|
  {
  }

  // ---------- Source selection for maintenance ----------

  const PLACEHOLDER_PROMPT := "Continue the story."

  datatype Selection = Skip | Impossible | AlreadyCovered | Summarise(count: nat)

  function Threshold(p: Policy): int {
    ((Application(p) - Lookahead(p)) as real * p.watermark).Floor
  }

  /** Maintenance plans with a placeholder prompt, and takes the coverage that admission
      reported as a floor. */
  function Select(ms: seq<Message>, fixed: seq<Prompt>, p: Policy, c: Counter,
                  required: Option<nat>, existing: Option<Summary>): Selection
  {
    if required.None? && Count(c, AsPrompts(ms)) < Threshold(p) then Skip
    else match Plan(ms, fixed, PLACEHOLDER_PROMPT, p, c, Lookahead(p))
      case None => Impossible
      case Some(planned) =>
        var floor := if required.None? then 0 else if required.value < |ms| then required.value else |ms|;
        var n := if floor > planned then floor else planned;
        if n == 0 then Skip
        else if existing.Some? && |existing.value.source.covered| >= n then AlreadyCovered
        else Summarise(n)
  }

  lemma FloorLess(n: int, x: real)
    ensures n < x.Floor <==> (n + 1) as real <= x
  {
  }

  /** What a run does. Without a requirement it rests below the watermark. Otherwise it
      summarises the planned prefix or the required one, whichever is longer, unless the
      summary in hand reaches as far; and it does nothing when that prefix is empty. */
  lemma SelectsExactly(ms: seq<Message>, fixed: seq<Prompt>, p: Policy, c: Counter, required: Option<nat>,
      existing: Option<Summary>)
    ensures var budget := p.target - p.overhead - Lookahead(p);
            var resting := required.None? && (Count(c, AsPrompts(ms)) + 1) as real <= budget as real * p.watermark;
            var plan := Plan(ms, fixed, "Continue the story.", p, c, Lookahead(p));
            var r := Select(ms, fixed, p, c, required, existing);
            && (r.Impossible? <==> !resting && plan.None?)
            && (resting ==> r == Skip)
            && (!resting && plan.Some? ==>
                  var asked := if required.None? then 0 else if required.value < |ms| then required.value else |ms|;
                  var n := if asked > plan.value then asked else plan.value;
                  r == if n == 0 then Skip
                       else if existing.Some? && |existing.value.source.covered| >= n then AlreadyCovered
                       else Summarise(n))
  {
    hide Count, Plan;
    FloorLess(Count(c, AsPrompts(ms)), (Application(p) - Lookahead(p)) as real * p.watermark);
  }

  /** Maintenance run for a blocked turn, even after the conversation has grown, never
      settles for less than admission asked for. */
  lemma SelectionMeetsRequirement(ms: seq<Message>, later: seq<Message>, fixed: seq<Prompt>, pending: string,
      p: Policy, c: Counter,
                                  summary: Option<Summary>, existing: Option<Summary>)
    requires ValidCounter(c) && ms <= later
    requires Build(ms, fixed, pending, p, c, summary, Lookahead(p)).NeedsMaintenance?
    ensures var required := Build(ms, fixed, pending, p, c, summary, Lookahead(p)).required;
            match Select(later, fixed, p, c, Some(required), existing)
            case Skip => false
            case Impossible =>
              Count(c, fixed + [Pending(PLACEHOLDER_PROMPT)]) > Application(p) - p.summaryMax - Lookahead(p)
            case AlreadyCovered => |existing.value.source.covered| >= required
            case Summarise(n) => required <= n <= |later| && (existing.Some? ==> |existing.value.source.covered| < n)
  {
    hide Count, Suffices, Plan;
    BlockedAsksForMore(ms, fixed, pending, p, c, summary, Lookahead(p));
    PlanGives(later, fixed, PLACEHOLDER_PROMPT, p, c, Lookahead(p));
    PlanInside(later, fixed, PLACEHOLDER_PROMPT, p, c, Lookahead(p));
  }

  /** A cheaper prompt never needs more coverage. */
  lemma CheaperPromptPlansLess(ms: seq<Message>, fixed: seq<Prompt>, cheap: string, dear: string, p: Policy,
      c: Counter, reserve: int)
    requires ValidCounter(c)
    requires Count(c, fixed + [Pending(cheap)]) <= Count(c, fixed + [Pending(dear)])
    requires Plan(ms, fixed, dear, p, c, reserve).Some?
    ensures Plan(ms, fixed, cheap, p, c, reserve).Some?
    ensures Plan(ms, fixed, cheap, p, c, reserve).value <= Plan(ms, fixed, dear, p, c, reserve).value
  {
    hide Count;
    PlanIsLeast(ms, fixed, cheap, p, c, reserve);
    PlanIsLeast(ms, fixed, dear, p, c, reserve);
    var r := Plan(ms, fixed, dear, p, c, reserve).value;
    assert Suffices(ms, r, Allowance(fixed, cheap, p, c, reserve), c);
  }

  /** When the placeholder costs no more than the real prompt, maintenance for a blocked
      turn summarises exactly the prefix that admission asked for, unless an existing
      summary already covers it. */
  lemma SelectsRequirement(ms: seq<Message>, fixed: seq<Prompt>, pending: string, p: Policy, c: Counter,
      summary: Option<Summary>)
    requires ValidCounter(c)
    requires Build(ms, fixed, pending, p, c, summary, Lookahead(p)).NeedsMaintenance?
    requires Count(c, fixed + [Pending(PLACEHOLDER_PROMPT)]) <= Count(c, fixed + [Pending(pending)])
    ensures var required := Build(ms, fixed, pending, p, c, summary, Lookahead(p)).required;
            Select(ms, fixed, p, c, Some(required), summary) ==
              if summary.Some? && |summary.value.source.covered| >= required then AlreadyCovered
                  else Summarise(required)
  {
    hide Count, Suffices, Plan;
    BlockedAsksForMore(ms, fixed, pending, p, c, summary, Lookahead(p));
    CheaperPromptPlansLess(ms, fixed, PLACEHOLDER_PROMPT, pending, p, c, Lookahead(p));
  }

  /** A summary of at least the prefix that admission asked for, rendered within its
      allotment, admits the blocked turn. */
  lemma MaintenanceUnblocks(ms: seq<Message>, fixed: seq<Prompt>, pending: string, p: Policy, c: Counter,
                            summary: Option<Summary>, made: Summary)
    requires ValidCounter(c)
    requires Build(ms, fixed, pending, p, c, summary, Lookahead(p)).NeedsMaintenance?
    requires Build(ms, fixed, pending, p, c, summary, Lookahead(p)).required <= |made.source.covered| <= |ms|
    requires Count(c, [Rendered(made)]) <= p.summaryMax
    ensures Build(ms, fixed, pending, p, c, Some(made), Lookahead(p)).Ready?
  {
    hide Count, Suffices, Plan;
    BlockedAsksForMore(ms, fixed, pending, p, c, summary, Lookahead(p));
    NoWedge(ms, fixed, pending, p, c, made, Lookahead(p));
  }

  // ---------- Passages that no chunk can hold ----------

  predicate HasOversized(ms: seq<Message>, p: Policy, c: Counter) {
    exists i | 0 <= i < |ms| :: Oversized(c, p.chunk, ms[i])
  }

  /** A requirement that contains an unchunkable passage is refused at once instead of
      being promised. */
  function Admit(ms: seq<Message>, fixed: seq<Prompt>, pending: string, p: Policy, c: Counter,
      summary: Option<Summary>): Outcome {
    var r := Build(ms, fixed, pending, p, c, summary, Lookahead(p));
    if r.NeedsMaintenance? && r.required <= |ms| && HasOversized(ms[..r.required], p, c) then TooLarge else r
  }

  /** Admission is the composition, except that a promise for a prefix holding a message
      too costly for any chunk is a refusal. */
  lemma AdmitExactly(ms: seq<Message>, fixed: seq<Prompt>, pending: string, p: Policy, c: Counter,
      summary: Option<Summary>)
    ensures var built := Build(ms, fixed, pending, p, c, summary, Lookahead(p));
            Admit(ms, fixed, pending, p, c, summary) ==
              if built.NeedsMaintenance? && exists i ::
                   0 <= i < built.required && i < |ms| && Count(c, AsPrompts([ms[i]])) > p.chunk
              then TooLarge else built
  {
    hide Count;
    var built := Build(ms, fixed, pending, p, c, summary, Lookahead(p));
    PlanInside(ms, fixed, pending, p, c, Lookahead(p));
    assert built.NeedsMaintenance? ==> built.required <= |ms|;
    hide Build;
    if built.NeedsMaintenance? {
      var prefix := ms[..built.required];
      forall i | 0 <= i < built.required
        ensures Oversized(c, p.chunk, prefix[i]) <==> Count(c, AsPrompts([ms[i]])) > p.chunk
      {
        assert prefix[i] == ms[i];
      }
      if i :| 0 <= i < built.required && i < |ms| && Count(c, AsPrompts([ms[i]])) > p.chunk {
        assert Oversized(c, p.chunk, prefix[i]);
      }
    }
  }

  /** Whatever history and summary come before it, the last user turn of an admitted
      context is the pending prompt. */
  lemma ReadyEndsWithPrompt(ms: seq<Message>, fixed: seq<Prompt>, pending: string, p: Policy, c: Counter,
      summary: Option<Summary>)
    ensures var r := Admit(ms, fixed, pending, p, c, summary);
            r.Ready? ==> r.messages != [] && A.PendingUser(r.messages) == Some(pending)
  {
    hide HasOversized, Count, Plan;
  }

  /** What maintenance then selects can be chunked, except for an unchunkable passage that
      lies between the coverage admission asked for and a larger selection; there is no
      such passage when the placeholder costs no more than the real prompt. */
  lemma PromisedSourceChunks(ms: seq<Message>, fixed: seq<Prompt>, pending: string, p: Policy, c: Counter,
      summary: Option<Summary>, n: nat)
    requires ValidCounter(c)
    requires Admit(ms, fixed, pending, p, c, summary).NeedsMaintenance?
    requires Select(ms, fixed, p, c, Some(Admit(ms, fixed, pending, p, c, summary).required), summary) == Summarise(n)
    ensures var required := Admit(ms, fixed, pending, p, c, summary).required;
            && 1 <= required <= n <= |ms|
            && (HasOversized(ms[..n], p, c) <==> exists i :: required <= i < n && Oversized(c, p.chunk, ms[i]))
            && (Count(c, fixed + [Pending(PLACEHOLDER_PROMPT)]) <= Count(c, fixed + [Pending(pending)]) ==>
                  n == required && Partitions(Chunks(ms[..n], c, p.chunk), ms[..n], c, p.chunk))
  {
    hide Count, Suffices, Plan, Oversized, Chunks, Partitions, Build, Select;
    var required := Admit(ms, fixed, pending, p, c, summary).required;
    BlockedAsksForMore(ms, fixed, pending, p, c, summary, Lookahead(p));
    SelectionMeetsRequirement(ms, ms, fixed, pending, p, c, summary, summary);
    forall i | 0 <= i < required ensures !Oversized(c, p.chunk, ms[i]) {
      assert ms[..required][i] == ms[i];
    }
    if HasOversized(ms[..n], p, c) {
      var i :| 0 <= i < n && Oversized(c, p.chunk, ms[..n][i]);
      assert ms[..n][i] == ms[i];
    }
    if i :| required <= i < n && Oversized(c, p.chunk, ms[i]) {
      assert ms[..n][i] == ms[i];
    }
    if Count(c, fixed + [Pending(PLACEHOLDER_PROMPT)]) <= Count(c, fixed + [Pending(pending)]) {
      SelectsRequirement(ms, fixed, pending, p, c, summary);
      forall i | 0 <= i < |ms[..n]| ensures !Oversized(c, p.chunk, ms[..n][i]) {
        assert ms[..n][i] == ms[i];
      }
      ChunksPartition(ms[..n], c, p.chunk);
    }
  }

  // ---------- Where planner and admission disagree ----------

  /** Maintenance refuses a blocked turn exactly when the placeholder does not fit, which
      takes a real prompt cheaper than the placeholder. */
  lemma RefusedExactlyWhen(ms: seq<Message>, fixed: seq<Prompt>, pending: string, p: Policy, c: Counter,
                           summary: Option<Summary>, existing: Option<Summary>)
    requires ValidCounter(c)
    requires Build(ms, fixed, pending, p, c, summary, Lookahead(p)).NeedsMaintenance?
    ensures var required := Build(ms, fixed, pending, p, c, summary, Lookahead(p)).required;
            var refused :=
              Count(c, fixed + [Pending(PLACEHOLDER_PROMPT)]) > Application(p) - p.summaryMax - Lookahead(p);
            && (Select(ms, fixed, p, c, Some(required), existing).Impossible? <==> refused)
            && (refused ==> c.encode(pending) < c.encode(PLACEHOLDER_PROMPT))
  {
    hide Count, Suffices, Plan;
    BlockedAsksForMore(ms, fixed, pending, p, c, summary, Lookahead(p));
    PlanGives(ms, fixed, PLACEHOLDER_PROMPT, p, c, Lookahead(p));
    PlanGives(ms, fixed, pending, p, c, Lookahead(p));
    if c.encode(pending) >= c.encode(PLACEHOLDER_PROMPT) { DearerPrompt(c, fixed, PLACEHOLDER_PROMPT, pending); }
  }

  lemma DearerPrompt(c: Counter, fixed: seq<Prompt>, cheap: string, dear: string)
    requires ValidCounter(c) && c.encode(cheap) <= c.encode(dear)
    ensures Count(c, fixed + [Pending(cheap)]) <= Count(c, fixed + [Pending(dear)])
  {
    hide Scaled;
    RawAppend(c, fixed, [Pending(cheap)]);
    RawAppend(c, fixed, [Pending(dear)]);
    assert Raw(c, [Pending(cheap)]) == Cost(c, Pending(cheap)) + Raw(c, []);
    assert Raw(c, [Pending(dear)]) == Cost(c, Pending(dear)) + Raw(c, []);
    var extra := Raw(c, fixed + [Pending(dear)]) - Raw(c, fixed + [Pending(cheap)]);
    ScaledSum(Raw(c, fixed + [Pending(cheap)]), extra, c.safety);
  }

  /** Exactly when preparation fails to unblock a promised turn. With any made summary in
      hand the turn is admitted if and only if what would be sent fits; otherwise it is
      promised again, for the same coverage, and maintenance has nothing left to do if and
      only if it can plan at all and the summary covers both what admission requires and
      what it plans itself. */
  lemma StuckExactlyWhen(ms: seq<Message>, fixed: seq<Prompt>, pending: string, p: Policy, c: Counter,
      before: Option<Summary>, made: Summary)
    requires ValidCounter(c) && |made.source.covered| <= |ms|
    requires Admit(ms, fixed, pending, p, c, before).NeedsMaintenance?
    ensures var required := Admit(ms, fixed, pending, p, c, before).required;
            var planned := Plan(ms, fixed, PLACEHOLDER_PROMPT, p, c, Lookahead(p));
            var after := Admit(ms, fixed, pending, p, c, Some(made));
            var fits := Count(c, Compacted(ms, fixed, pending, made)) <= Application(p) - Lookahead(p);
            && (after.Ready? <==> fits)
            && (!fits ==> after == NeedsMaintenance(required))
            && (Select(ms, fixed, p, c, Some(required), Some(made)).AlreadyCovered? <==>
                  planned.Some? && required <= |made.source.covered| && planned.value <= |made.source.covered|)
  {
    hide Count, Plan, HasOversized;
    BlockedAsksForMore(ms, fixed, pending, p, c, before, Lookahead(p));
  }
}
