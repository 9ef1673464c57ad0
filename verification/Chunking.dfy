/** Cutting history into maintenance chunks by packing from left to right. */
module Chunking {
  import opened Basics
  import opened Sessions
  import opened ContextBudget

  predicate Fits(c: Counter, max: nat, ms: seq<Message>) {
    Count(c, AsPrompts(ms)) <= max
  }

  predicate Oversized(c: Counter, max: nat, m: Message) {
    !Fits(c, max, [m])
  }

  function Concat<T>(parts: seq<seq<T>>): seq<T> {
    if parts == [] then [] else Concat(parts[..|parts| - 1]) + parts[|parts| - 1]
  }

  // ---------- Specification ----------

  /** Closed chunks and the one still being filled. */
  datatype Packing = Packing(closed: seq<seq<Message>>, current: seq<Message>)

  function Add(p: Packing, m: Message, c: Counter, max: nat): Packing {
    if p.current != [] && !Fits(c, max, p.current + [m]) then Packing(p.closed + [p.current], [m])
    else Packing(p.closed, p.current + [m])
  }

  function Packed(ms: seq<Message>, c: Counter, max: nat): Packing {
    if ms == [] then Packing([], []) else Add(Packed(ms[..|ms| - 1], c, max), ms[|ms| - 1], c, max)
  }

  function Chunks(ms: seq<Message>, c: Counter, max: nat): seq<seq<Message>> {
    var p := Packed(ms, c, max);
    if p.current == [] then p.closed else p.closed + [p.current]
  }

  // ---------- The loops ----------

  method OversizedSourceMessage(ms: seq<Message>, c: Counter, max: nat) returns (r: Option<Message>)
    ensures r.None? <==> forall i | 0 <= i < |ms| :: Count(c, AsPrompts([ms[i]])) <= max
    ensures r.Some? ==> exists i :: 0 <= i < |ms| && ms[i] == r.value && Count(c, AsPrompts([ms[i]])) > max
                                    && forall j | 0 <= j < i :: Count(c, AsPrompts([ms[j]])) <= max
  {
    for i := 0 to |ms|
      invariant forall j | 0 <= j < i :: !Oversized(c, max, ms[j])
    {
      if Oversized(c, max, ms[i]) { return Some(ms[i]); }
    }
    return None;
  }

  method CutIntoChunks(ms: seq<Message>, c: Counter, max: nat) returns (r: Option<seq<seq<Message>>>)
    ensures r.None? <==> exists i :: 0 <= i < |ms| && Count(c, AsPrompts([ms[i]])) > max
    ensures r.Some? ==> r.value == Chunks(ms, c, max)
  {
    var oversized := OversizedSourceMessage(ms, c, max);
    if oversized.Some? { return None; }
    var chunks, current := [], [];
    for i := 0 to |ms|
      invariant Packing(chunks, current) == Packed(ms[..i], c, max)
    {
      assert ms[..i + 1][..i] == ms[..i];
      var candidate := current + [ms[i]];
      if current != [] && Count(c, AsPrompts(candidate)) > max {
        chunks := chunks + [current];
        current := [ms[i]];
      } else {
        current := candidate;
      }
    }
    assert ms[..|ms|] == ms;
    if current != [] { chunks := chunks + [current]; }
    return Some(chunks);
  }

  // ---------- What the packing is ----------

  ghost predicate Partitions(parts: seq<seq<Message>>, ms: seq<Message>, c: Counter, max: nat) {
    && Concat(parts) == ms
    && forall i | 0 <= i < |parts| :: parts[i] != [] && Fits(c, max, parts[i])
  }

  lemma ConcatPush<T>(parts: seq<seq<T>>, last: seq<T>)
    ensures Concat(parts + [last]) == Concat(parts) + last
  {
    assert (parts + [last])[..|parts|] == parts;
  }

  ghost predicate PackingSound(p: Packing, ms: seq<Message>, c: Counter, max: nat) {
    && Concat(p.closed) + p.current == ms
    && (p.current == [] <==> ms == [])
    && (forall i | 0 <= i < |p.closed| :: p.closed[i] != [] && Fits(c, max, p.closed[i]))
    && (ms != [] ==> Fits(c, max, p.current))
  }

  lemma AddSound(p: Packing, ms: seq<Message>, m: Message, c: Counter, max: nat)
    requires PackingSound(p, ms, c, max) && !Oversized(c, max, m)
    ensures PackingSound(Add(p, m, c, max), ms + [m], c, max)
  {
    hide Fits, Concat;
    ConcatPush(p.closed, p.current);
    assert Concat(p.closed) + (p.current + [m]) == ms + [m];
    if p.current == [] { assert p.current + [m] == [m]; }
  }

  lemma {:induction false} PackedSound(ms: seq<Message>, c: Counter, max: nat)
    requires forall i | 0 <= i < |ms| :: !Oversized(c, max, ms[i])
    ensures PackingSound(Packed(ms, c, max), ms, c, max)
  {
    hide Fits, Oversized, Add;
    if ms == [] {
      hide *;
      EmptySound(c, max);
    } else {
      var init, m := ms[..|ms| - 1], ms[|ms| - 1];
      PackedSound(init, c, max);
      hide PackingSound;
      AddSound(Packed(init, c, max), init, m, c, max);
      assert ms == init + [m];
    }
  }

  lemma EmptySound(c: Counter, max: nat)
    ensures PackingSound(Packed([], c, max), [], c, max)
  {
  }

  lemma NoneOversized(ms: seq<Message>, c: Counter, max: nat)
    requires forall i | 0 <= i < |ms| :: Count(c, AsPrompts([ms[i]])) <= max
    ensures forall i | 0 <= i < |ms| :: !Oversized(c, max, ms[i])
  {
  }

  /** Chunks are non-empty, each fits, and together they are the input. */
  lemma ChunksPartition(ms: seq<Message>, c: Counter, max: nat)
    requires forall i | 0 <= i < |ms| :: !Oversized(c, max, ms[i])
    ensures Partitions(Chunks(ms, c, max), ms, c, max)
    ensures forall i | 0 <= i < |Chunks(ms, c, max)| ::
              Chunks(ms, c, max)[i] != [] && Count(c, AsPrompts(Chunks(ms, c, max)[i])) <= max
    ensures Chunks(ms, c, max) == [] <==> ms == []
  {
    PackingParts(ms, c, max);
    hide Chunks, Concat;
  }

  lemma PackingParts(ms: seq<Message>, c: Counter, max: nat)
    requires forall i | 0 <= i < |ms| :: !Oversized(c, max, ms[i])
    ensures Partitions(Chunks(ms, c, max), ms, c, max)
    ensures Chunks(ms, c, max) == [] <==> ms == []
  {
    hide Fits;
    PackedSound(ms, c, max);
    var p := Packed(ms, c, max);
    ConcatPush(p.closed, p.current);
  }

  /** Packing left to right is stable: closed chunks stay closed as history grows. */
  lemma {:induction false} ClosedStayClosed(ms: seq<Message>, more: seq<Message>, c: Counter, max: nat)
    ensures Packed(ms, c, max).closed <= Packed(ms + more, c, max).closed
  {
    hide Fits;
    if more == [] {
      assert ms + more == ms;
    } else {
      assert (ms + more)[..|ms + more| - 1] == ms + more[..|more| - 1];
      ClosedStayClosed(ms, more[..|more| - 1], c, max);
    }
  }

  /** All chunks of a prefix but its last are the leading chunks of the longer history, so
      a checkpoint is reused whole but for one chunk, whichever side grew. */
  lemma ChunksPrefixStable(ms: seq<Message>, more: seq<Message>, c: Counter, max: nat)
    requires forall i | 0 <= i < |ms| :: !Oversized(c, max, ms[i])
    ensures var a, b := Chunks(ms, c, max), Chunks(ms + more, c, max);
            a != [] ==> |a| <= |b| && a[..|a| - 1] == b[..|a| - 1]
  {
    hide Fits;
    ClosedStayClosed(ms, more, c, max);
    PackedSound(ms, c, max);
    if ms != [] { NonEmptyCurrent(ms + more, c, max); }
  }

  lemma NonEmptyCurrent(ms: seq<Message>, c: Counter, max: nat)
    requires ms != []
    ensures Packed(ms, c, max).current != []
  {
    hide Fits;
  }

  // ---------- Optimality ----------

  lemma PartFits(a: seq<Message>, b: seq<Message>, c: Counter, max: nat)
    requires ValidCounter(c) && Fits(c, max, a + b)
    ensures Fits(c, max, a) && Fits(c, max, b)
  {
    assert AsPrompts(a + b) == AsPrompts(a) + AsPrompts(b);
    CountSubadditive(c, AsPrompts(a), AsPrompts(b));
  }

  /** Packing a run of messages that fits one chunk opens at most one new chunk. */
  lemma {:induction false} AtMostOneBreak(ms: seq<Message>, run: seq<Message>, c: Counter, max: nat)
    requires ValidCounter(c) && Fits(c, max, run)
    ensures var p, q := Packed(ms, c, max), Packed(ms + run, c, max);
            || (q.closed == p.closed && q.current == p.current + run)
            || (p.current != [] && |q.closed| == |p.closed| + 1 && |q.current| <= |run|
               && q.current == run[|run| - |q.current|..])
  {
    hide Fits;
    if run == [] {
      assert ms + run == ms;
    } else {
      var init, m := run[..|run| - 1], run[|run| - 1];
      assert run == init + [m];
      assert (ms + run)[..|ms + run| - 1] == ms + init && (ms + run)[|ms + run| - 1] == m;
      PartFits(init, [m], c, max);
      AtMostOneBreak(ms, init, c, max);
      var p, q := Packed(ms, c, max), Packed(ms + init, c, max);
      if q.closed == p.closed && q.current == p.current + init {
        assert q.current + [m] == p.current + run;
        if p.current == [] { assert q.current + [m] == run; }
      } else {
        var k := |init| - |q.current|;
        assert q.current + [m] == run[k..];
        assert run == run[..k] + run[k..];
        PartFits(run[..k], run[k..], c, max);
      }
    }
  }

  /** No contiguous partition within the limit has fewer chunks. */
  lemma {:induction false} FewestChunks(ms: seq<Message>, parts: seq<seq<Message>>, c: Counter, max: nat)
    requires ValidCounter(c)
    requires Concat(parts) == ms && forall i | 0 <= i < |parts| :: Count(c, AsPrompts(parts[i])) <= max
    ensures |Chunks(ms, c, max)| <= |parts|
    decreases |parts|
  {
    if parts != [] {
      var init, last := parts[..|parts| - 1], parts[|parts| - 1];
      assert Fits(c, max, last);
      hide Fits;
      FewestChunks(Concat(init), init, c, max);
      AtMostOneBreak(Concat(init), last, c, max);
    }
  }
}
