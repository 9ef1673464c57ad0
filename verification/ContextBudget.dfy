/** Fitting a conversation into a token budget: the counter, the planner that chooses
    what to summarise, and the admission that composes the final context. */
module ContextBudget {
  import opened Basics
  import opened Sessions

  // ---------- Counting ----------

  /** A tokenizer with an uncertainty margin. */
  datatype Counter = Counter(encode: string -> nat, safety: real)

  predicate ValidCounter(c: Counter) {
    1.0 <= c.safety <= 2.0
  }

  function RoleText(r: Role): string {
    match r
    case User => "user"
    case Assistant => "assistant"
    case System => "system"
  }

  function Ceil(x: real): int {
    -((-x).Floor)
  }

  function Cost(c: Counter, m: Prompt): nat {
    c.encode(RoleText(m.role)) + c.encode(m.content) + 6
  }

  function Raw(c: Counter, ms: seq<Prompt>): nat {
    if ms == [] then 0 else Cost(c, ms[0]) + Raw(c, ms[1..])
  }

  function Times(n: nat, k: real): real {
    n as real * k
  }

  /** The margin is applied once to a sum and rounded up. */
  function Scaled(n: nat, k: real): int {
    Ceil(Times(n, k))
  }

  function CountText(c: Counter, text: string): int {
    Scaled(c.encode(text), c.safety)
  }

  function Count(c: Counter, ms: seq<Prompt>): int {
    Scaled(Raw(c, ms), c.safety)
  }

  lemma {:induction false} RawAppend(c: Counter, a: seq<Prompt>, b: seq<Prompt>)
    ensures Raw(c, a + b) == Raw(c, a) + Raw(c, b)
  {
    if a == [] {
      assert a + b == b;
    } else {
      assert (a + b)[1..] == a[1..] + b;
      RawAppend(c, a[1..], b);
    }
  }

  lemma CeilBounds(x: real)
    ensures Ceil(x) as real - 1.0 < x <= Ceil(x) as real
  {
  }

  lemma Distributes(m: nat, n: nat, k: real)
    ensures Times(m + n, k) == Times(m, k) + Times(n, k)
  {
  }

  lemma AtLeast(n: nat, k: real)
    requires k >= 1.0
    ensures Times(n, k) >= n as real
  {
  }

  lemma Rounded(a: int, b: int, c: int, x: real, y: real)
    requires a as real - 1.0 < x <= a as real && b as real - 1.0 < y <= b as real
    requires c as real - 1.0 < x + y <= c as real
    ensures c <= a + b
    ensures y >= 0.0 ==> a <= c
    ensures y >= 1.0 ==> a < c
  {
    assert c as real - 1.0 < (a + b) as real;
  }

  lemma AtLeastInteger(n: nat, a: int, x: real)
    requires n as real <= x <= a as real
    ensures n <= a
  {
  }

  /** Rounding up a scaled sum never exceeds rounding up its scaled parts. */
  lemma ScaledSum(m: nat, n: nat, k: real)
    requires k >= 1.0
    ensures Scaled(m + n, k) <= Scaled(m, k) + Scaled(n, k)
    ensures m <= Scaled(m, k) <= Scaled(m + n, k)
    ensures n > 0 ==> Scaled(m, k) < Scaled(m + n, k)
  {
    hide Ceil, Times;
    var x, y := Times(m, k), Times(n, k);
    Distributes(m, n, k);
    AtLeast(m, k);
    AtLeast(n, k);
    CeilBounds(x);
    CeilBounds(y);
    CeilBounds(x + y);
    Rounded(Ceil(x), Ceil(y), Ceil(x + y), x, y);
    AtLeastInteger(m, Ceil(x), x);
  }

  /** Rounding up once over a whole list never exceeds rounding up its parts. */
  lemma CountSubadditive(c: Counter, a: seq<Prompt>, b: seq<Prompt>)
    requires ValidCounter(c)
    ensures Count(c, a + b) <= Count(c, a) + Count(c, b)
    ensures 0 <= Count(c, a) <= Count(c, a + b) && Count(c, b) <= Count(c, a + b)
  {
    hide Scaled;
    RawAppend(c, a, b);
    ScaledSum(Raw(c, a), Raw(c, b), c.safety);
    ScaledSum(Raw(c, b), Raw(c, a), c.safety);
  }

  /** What one message costs: the tokens of its role and of its content and six more, times
      the margin, rounded up. */
  lemma MessageCost(c: Counter, m: Prompt)
    ensures var role := match m.role case User => "user" case Assistant => "assistant" case System => "system";
            var tokens := c.encode(role) + c.encode(m.content) + 6;
            Count(c, [m]) as real - 1.0 < tokens as real * c.safety <= Count(c, [m]) as real
  {
    assert Raw(c, [m]) == Cost(c, m) + Raw(c, []);
    CeilBounds(Raw(c, [m]) as real * c.safety);
  }

  /** Adding a message to a list strictly raises its count, since each costs at least six. */
  lemma CountPositive(c: Counter, a: seq<Prompt>, m: Prompt)
    requires ValidCounter(c)
    ensures Count(c, [m]) >= 6
    ensures Count(c, a) < Count(c, a + [m])
  {
    hide Scaled;
    RawAppend(c, a, [m]);
    assert Raw(c, [m]) == Cost(c, m) + Raw(c, []);
    ScaledSum(Raw(c, [m]), 0, c.safety);
    ScaledSum(Raw(c, a), Raw(c, [m]), c.safety);
  }

  function AsPrompts(ms: seq<Message>): (r: seq<Prompt>)
    ensures |r| == |ms|
  {
    seq(|ms|, i requires 0 <= i < |ms| => Prompt(ms[i].role, ms[i].content))
  }

  lemma SuffixCheaper(c: Counter, ms: seq<Message>, a: nat, b: nat)
    requires ValidCounter(c) && a <= b <= |ms|
    ensures Count(c, AsPrompts(ms[b..])) <= Count(c, AsPrompts(ms[a..]))
  {
    assert AsPrompts(ms[a..]) == AsPrompts(ms[a..b]) + AsPrompts(ms[b..]);
    CountSubadditive(c, AsPrompts(ms[a..b]), AsPrompts(ms[b..]));
  }

  // ---------- Policy ----------

  datatype Policy = Policy(
    enabled: bool,
    target: int,
    overhead: nat,
    outputReserve: nat,
    summaryMax: nat,
    chunk: nat,
    watermark: real)

  function Application(p: Policy): int {
    p.target - p.overhead
  }

  /** The bounds a stored or narrowed policy must pass. */
  predicate ValidPolicy(p: Policy) {
    && p.target >= 8000 && p.outputReserve >= 1000 && p.summaryMax >= 1000 && p.chunk >= 2000
    && 0.5 <= p.watermark <= 0.95
    && Application(p) >= 4000
  }

  /** Narrow the budget to the selected model's window; None: the window is too small. */
  function EffectivePolicy(p: Policy, window: Option<nat>): Option<Policy> {
    if window.None? then Some(p)
    else
      var ceiling: int := window.value - p.outputReserve;
      if ceiling >= p.target then Some(p)
      else if ValidPolicy(p.(target := ceiling)) then Some(p.(target := ceiling))
      else None
  }

  function Lookahead(p: Policy): int {
    var third := Application(p) / 3;
    if third < 12000 then third else 12000
  }

  /** A returned policy is valid, keeps everything but the target, never exceeds the
      stored target or the window less the output reserve, and takes all that both allow. */
  lemma EffectivePolicyFits(p: Policy, window: Option<nat>)
    requires ValidPolicy(p)
    ensures EffectivePolicy(p, window).Some? ==>
              var q := EffectivePolicy(p, window).value;
              && ValidPolicy(q) && q == p.(target := q.target)
              && q.target <= p.target
              && (window.Some? ==> q.target + q.outputReserve <= window.value)
              && (q.target == p.target || (window.Some? && q.target + q.outputReserve == window.value))
    ensures EffectivePolicy(p, window).None? <==>
              window.Some? && forall t | 0 <= t && t + p.outputReserve <= window.value :: !ValidPolicy(p.(target := t))
  {
    if window.Some? {
      var top := window.value - p.outputReserve;
      if EffectivePolicy(p, window).None? {
        forall t | 0 <= t && t + p.outputReserve <= window.value ensures !ValidPolicy(p.(target := t)) {
          assert t <= top;
        }
      } else if top >= p.target {
        assert ValidPolicy(p.(target := p.target));
      }
    }
  }

  /** A window is refused exactly when the target it leaves falls below the floors. */
  lemma EffectivePolicyRefused(p: Policy, window: nat)
    requires ValidPolicy(p)
    ensures EffectivePolicy(p, Some(window)).None? <==>
              var left: int := window - p.outputReserve;
              left < p.target && (left < 8000 || left - p.overhead < 4000)
  {
  }

  /** The lookahead is a third of the application budget, and never more than 12000. */
  lemma LookaheadExactly(p: Policy)
    requires ValidPolicy(p)
    ensures var budget := p.target - p.overhead;
            && Lookahead(p) <= 12000
            && 3 * Lookahead(p) <= budget
            && (Lookahead(p) < 12000 ==> budget < 3 * Lookahead(p) + 3)
  {
  }

  // ---------- Where history may be cut ----------

  /** A prefix end that does not separate a user message from the answer after it. */
  predicate Boundary(ms: seq<Message>, b: int) {
    0 <= b <= |ms| && !(0 < b < |ms| && ms[b - 1].role.User? && ms[b].role.Assistant?)
  }

  method PairBoundaries(ms: seq<Message>) returns (bs: seq<nat>)
    ensures forall i, j | 0 <= i < j < |bs| :: bs[i] < bs[j]
    ensures forall b :: b in bs <==>
              0 <= b <= |ms| && !(0 < b < |ms| && ms[b - 1].role.User? && ms[b].role.Assistant?)
  {
    bs := [0];
    var index := 0;
    while index < |ms|
      invariant 0 <= index <= |ms|
      invariant bs != [] && bs[|bs| - 1] == index
      invariant forall i, j | 0 <= i < j < |bs| :: bs[i] < bs[j]
      invariant forall b :: b in bs <==> 0 <= b <= index && Boundary(ms, b)
      decreases |ms| - index
    {
      if ms[index].role.User? && index + 1 < |ms| && ms[index + 1].role.Assistant? {
        index := index + 2;
      } else {
        index := index + 1;
      }
      bs := bs + [index];
    }
  }

  // ---------- The planner ----------

  function Pending(text: string): Prompt {
    Prompt(User, text)
  }

  /** What is left for recent history once everything mandatory is paid for. */
  function Allowance(fixed: seq<Prompt>, pending: string, p: Policy, c: Counter, reserve: int): int {
    Application(p) - Count(c, fixed + [Pending(pending)]) - p.summaryMax - reserve
  }

  predicate Suffices(ms: seq<Message>, b: int, allowance: int, c: Counter) {
    Boundary(ms, b) && Count(c, AsPrompts(ms[b..])) <= allowance
  }

  function LeastFrom(ms: seq<Message>, b: nat, allowance: int, c: Counter): (r: nat)
    requires b <= |ms|
    ensures b <= r <= |ms|
    decreases |ms| - b
  {
    if b == |ms| || Suffices(ms, b, allowance, c) then b else LeastFrom(ms, b + 1, allowance, c)
  }

  /** The number of leading messages to summarise, or None if nothing can help. */
  function Plan(ms: seq<Message>, fixed: seq<Prompt>, pending: string, p: Policy, c: Counter,
      reserve: int): (r: Option<nat>)
    ensures r.Some? ==> r.value <= |ms|
  {
    var allowance := Allowance(fixed, pending, p, c, reserve);
    if allowance < 0 then None else Some(LeastFrom(ms, 0, allowance, c))
  }

  lemma {:induction false} LeastFromIsLeast(ms: seq<Message>, b: nat, allowance: int, c: Counter)
    requires b <= |ms| && allowance >= 0 && ValidCounter(c)
    ensures var r := LeastFrom(ms, b, allowance, c);
            b <= r <= |ms| && Suffices(ms, r, allowance, c) && forall k | b <= k < r :: !Suffices(ms, k, allowance, c)
    decreases |ms| - b
  {
    if b == |ms| {
      assert AsPrompts(ms[b..]) == [];
      assert Count(c, []) == 0;
    } else if !Suffices(ms, b, allowance, c) {
      LeastFromIsLeast(ms, b + 1, allowance, c);
    }
  }

  /** The planner fails exactly on a negative allowance; otherwise it returns the least
      cut whose suffix fits, and every later cut fits too. */
  lemma PlanIsLeast(ms: seq<Message>, fixed: seq<Prompt>, pending: string, p: Policy, c: Counter, reserve: int)
    requires ValidCounter(c)
    ensures var a := Allowance(fixed, pending, p, c, reserve);
            var plan := Plan(ms, fixed, pending, p, c, reserve);
            && (plan.None? <==> a < 0)
            && (plan.Some? ==>
                  && Suffices(ms, plan.value, a, c)
                  && (forall k | 0 <= k < plan.value :: !Suffices(ms, k, a, c))
                  && (forall k | plan.value <= k <= |ms| && Boundary(ms, k) :: Suffices(ms, k, a, c)))
  {
    var a := Allowance(fixed, pending, p, c, reserve);
    if a >= 0 {
      LeastFromIsLeast(ms, 0, a, c);
      forall k | LeastFrom(ms, 0, a, c) <= k <= |ms| && Boundary(ms, k) ensures Suffices(ms, k, a, c) {
        SuffixCheaper(c, ms, LeastFrom(ms, 0, a, c), k);
      }
    }
  }

  /** A prefix that may be summarised: it separates no exchange, and the rest of the history
      fits beside the mandatory messages, the summary and the reserve. */
  ghost predicate MayCut(ms: seq<Message>, b: nat, fixed: seq<Prompt>, pending: string, p: Policy, c: Counter,
      reserve: int)
  {
    && b <= |ms| && !(0 < b < |ms| && ms[b - 1].role.User? && ms[b].role.Assistant?)
    && Count(c, fixed + [Prompt(User, pending)]) + p.summaryMax + reserve + Count(c, AsPrompts(ms[b..]))
         <= p.target - p.overhead
  }

  /** The plan is the least such prefix, and there is none exactly when the mandatory part
      alone does not fit. */
  lemma PlanExactly(ms: seq<Message>, fixed: seq<Prompt>, pending: string, p: Policy, c: Counter, reserve: int)
    requires ValidCounter(c)
    ensures var plan := Plan(ms, fixed, pending, p, c, reserve);
            && (plan.None? <==>
                  Count(c, fixed + [Prompt(User, pending)]) + p.summaryMax + reserve > p.target - p.overhead)
            && (plan.Some? ==>
                  && MayCut(ms, plan.value, fixed, pending, p, c, reserve)
                  && forall b: nat | b < plan.value :: !MayCut(ms, b, fixed, pending, p, c, reserve))
  {
    hide Count;
    PlanIsLeast(ms, fixed, pending, p, c, reserve);
    assert forall b: nat :: MayCut(ms, b, fixed, pending, p, c, reserve) <==>
        Suffices(ms, b, Allowance(fixed, pending, p, c, reserve), c);
  }

  /** The scan over the boundaries. Its final raise is unreachable: the last boundary is
      the whole history, whose empty suffix always fits. */
  method ChooseSummaryPrefix(ms: seq<Message>, fixed: seq<Prompt>, pending: string, p: Policy, c: Counter, reserve: int)
    returns (prefix: Option<seq<Message>>)
    requires ValidCounter(c)
    ensures prefix.None? <==> Allowance(fixed, pending, p, c, reserve) < 0
    ensures var plan := Plan(ms, fixed, pending, p, c, reserve);
            prefix == if plan.None? then None else Some(ms[..plan.value])
  {
    var mandatory := Count(c, fixed + [Pending(pending)]);
    var allowance := Application(p) - mandatory - p.summaryMax - reserve;
    PlanIsLeast(ms, fixed, pending, p, c, reserve);
    if allowance < 0 { return None; }
    var bs := PairBoundaries(ms);
    ghost var least := Plan(ms, fixed, pending, p, c, reserve).value;
    assert Boundary(ms, least) && least in bs;
    ghost var at :| 0 <= at < |bs| && bs[at] == least;
    for i := 0 to |bs|
      invariant i <= at
    {
      assert Boundary(ms, bs[i]);
      if Count(c, AsPrompts(ms[bs[i]..])) <= allowance {
        assert Suffices(ms, bs[i], allowance, c);
        assert i == at;
        return Some(ms[..bs[i]]);
      }
    }
    assert false;
  }
}
