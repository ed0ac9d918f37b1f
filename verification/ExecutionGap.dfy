/** How far execution may trail behind the chain: block numbers are u64, the gap in a header is an i8,
    and the checks are done on the narrow values. */
module ExecutionGap {

  const U64: int := 0x1_0000_0000_0000_0000

  type BlockNumber = x: int | 0 <= x < U64
  type Gap = g: int | -128 <= g <= 127 witness 0

  /** `a - b` on u64, wrapping around. */
  function Minus(a: BlockNumber, b: BlockNumber): BlockNumber {
    if a >= b then a - b else a - b + U64
  }

  /** The `as i8` cast keeps the lowest eight bits. */
  function Narrow(x: BlockNumber): Gap {
    var low := x % 256;
    if low < 128 then low else low - 256
  }

  /** The `as u64` cast of an i8 extends the sign. */
  function Widen(g: Gap): BlockNumber {
    if g >= 0 then g else g + U64
  }

  datatype Header = Header(number: BlockNumber, gap: Gap)

  datatype Result = Accepted | NotBest | InvalidExecutionGap | ShouldWait

  /** What a check reads: the last confirmed header, the executed number and the largest gap allowed. */
  datatype State = State(confirmed: Header, executed: BlockNumber, max: Gap)

  function ExecutionNumber(h: Header): BlockNumber {
    Minus(h.number, Widen(h.gap))
  }

  /** The consensus verifiers, on the numbers in a proposal. */
  function VerifyProposal(s: State, number: BlockNumber, execution: BlockNumber): Result {
    if number != s.confirmed.number + 1 then NotBest
    else
      var gap := Narrow(Minus(number, execution));
      if gap < 1 then InvalidExecutionGap
      else if gap > s.max then InvalidExecutionGap
      else if execution < ExecutionNumber(s.confirmed) then InvalidExecutionGap
      else if execution > s.executed then ShouldWait
      else Accepted
  }

  /** The coordinator's verifier, on a downloaded header. */
  function VerifyHeader(s: State, h: Header): Result {
    if h.number != s.confirmed.number + 1 then NotBest
    else if h.gap < 1 then InvalidExecutionGap
    else if h.gap > s.max then InvalidExecutionGap
    else if ExecutionNumber(h) < ExecutionNumber(s.confirmed) then InvalidExecutionGap
    else if ExecutionNumber(h) > s.executed then ShouldWait
    else Accepted
  }

  /** The header `build_block` makes of an accepted proposal. */
  function Built(number: BlockNumber, execution: BlockNumber): Header {
    Header(number, Narrow(Minus(number, execution)))
  }

  // ---------------------------------------------------------------- the same on plain integers

  /** The header's gap is a true difference: 0 for the first block, at least 1 afterwards. */
  predicate TrueGap(h: Header) {
    0 <= h.gap <= h.number && (h.number > 0 ==> h.gap >= 1)
  }

  /** Execution stays behind the chain. */
  predicate Consistent(s: State) {
    TrueGap(s.confirmed) && s.executed <= s.confirmed.number
  }

  /** The rule without machine integers. */
  predicate Ideal(s: State, number: int, execution: int) {
    number == s.confirmed.number + 1
    && 1 <= number - execution <= s.max
    && s.confirmed.number - s.confirmed.gap <= execution <= s.executed
  }

  lemma TrueExecutionNumber(h: Header)
    requires TrueGap(h)
    ensures ExecutionNumber(h) == h.number - h.gap
  {
  }

  /** In a consistent state the verifiers decide exactly the ideal rule, however large the numbers, and
      the gap written into the header is the true difference. */
  lemma ProposalExact(s: State, number: BlockNumber, execution: BlockNumber)
    requires Consistent(s)
    ensures VerifyProposal(s, number, execution).Accepted? <==> Ideal(s, number, execution)
    ensures Ideal(s, number, execution) ==>
      Built(number, execution).gap == number - execution && TrueGap(Built(number, execution))
  {
    TrueExecutionNumber(s.confirmed);
    if number == s.confirmed.number + 1 && s.confirmed.number - s.confirmed.gap <= execution <= s.executed {
      NarrowSmall(number - execution);
    }
  }

  /** Up to 128 the cast loses nothing but the value 128 itself, which turns negative. */
  lemma NarrowSmall(d: int)
    requires 0 <= d <= 128
    ensures Narrow(d) == if d == 128 then -128 else d
  {
  }

  lemma HeaderExact(s: State, h: Header)
    requires Consistent(s)
    ensures VerifyHeader(s, h).Accepted? <==> Ideal(s, h.number, h.number - h.gap)
  {
    TrueExecutionNumber(s.confirmed);
  }

  /** A block one node builds from an accepted proposal passes another node's check of the header, in
      the same state, and the header names the execution number of the proposal. */
  lemma VerifiersAgree(s: State, number: BlockNumber, execution: BlockNumber)
    requires Consistent(s) && VerifyProposal(s, number, execution).Accepted?
    ensures VerifyHeader(s, Built(number, execution)).Accepted? && ExecutionNumber(Built(number, execution)) == execution
  {
    ProposalExact(s, number, execution);
    HeaderExact(s, Built(number, execution));
    TrueExecutionNumber(Built(number, execution));
  }

  /** The range check on the narrow value does not do it alone: it sees the difference modulo 256, so
      that 257 passes for 1. */
  lemma NarrowCheckAlone(number: BlockNumber, execution: BlockNumber, max: Gap)
    requires execution <= number
    ensures 1 <= Narrow(Minus(number, execution)) <= max <==> 1 <= (number - execution) % 256 <= max
  {
  }

  // ---------------------------------------------------------------- a proposer's own check

  /** Before proposing, a node compares the narrow gap with the upper bound alone. */
  predicate Prepares(s: State) {
    s.confirmed.number + 1 < U64 && Narrow(Minus(s.confirmed.number + 1, s.executed)) <= s.max
  }

  /** The node's own execution is no further back than the confirmed block says. */
  predicate UpToDate(s: State) {
    Consistent(s) && s.confirmed.number - s.confirmed.gap <= s.executed
  }

  /** That check equals the verifiers' rule except at a true gap of exactly 128. */
  lemma PreparesExact(s: State)
    requires UpToDate(s) && s.confirmed.number + 1 < U64 && s.max >= 1
    ensures var gap := s.confirmed.number + 1 - s.executed;
      (Prepares(s) <==> Ideal(s, s.confirmed.number + 1, s.executed) || gap == 128)
      && (gap == 128 ==> s.confirmed.gap == 127)
  {
    NarrowSmall(s.confirmed.number + 1 - s.executed);
  }

  lemma PreparesTooFar()
    ensures exists s: State :: UpToDate(s) && Prepares(s) && VerifyProposal(s, s.confirmed.number + 1, s.executed) == InvalidExecutionGap
  {
    var s := State(Header(200, 127), 73, 127);
    assert Minus(201, 73) == 128;
    NarrowSmall(128);
  }

  // ---------------------------------------------------------------- along a chain

  /** One accepted block: by consensus, or downloaded. `executed` and `max` are those of the moment. */
  datatype Accept = Proposed(number: BlockNumber, execution: BlockNumber, executed: BlockNumber, max: Gap)
                  | Downloaded(h: Header, executed: BlockNumber, max: Gap)

  function HeaderOf(a: Accept): Header {
    if a.Proposed? then Built(a.number, a.execution) else a.h
  }

  function StateAt(confirmed: Header, a: Accept): State {
    State(confirmed, a.executed, a.max)
  }

  ghost predicate AcceptedAt(confirmed: Header, a: Accept) {
    a.executed <= confirmed.number
    && (if a.Proposed? then VerifyProposal(StateAt(confirmed, a), a.number, a.execution).Accepted?
        else VerifyHeader(StateAt(confirmed, a), a.h).Accepted?)
  }

  /** A chain of accepted blocks on the genesis header. */
  ghost predicate IsChain(hs: seq<Header>, accepts: seq<Accept>) {
    |hs| == |accepts| + 1 && hs[0] == Header(0, 0)
    && forall i :: 0 <= i < |accepts| ==> AcceptedAt(hs[i], accepts[i]) && hs[i + 1] == HeaderOf(accepts[i])
  }

  lemma OneBlock(confirmed: Header, a: Accept)
    requires TrueGap(confirmed) && AcceptedAt(confirmed, a)
    ensures var h := HeaderOf(a);
      TrueGap(h) && h.number == confirmed.number + 1 && 1 <= h.gap <= a.max
      && confirmed.number - confirmed.gap <= h.number - h.gap <= a.executed
      && (a.Proposed? ==> h.gap == a.number - a.execution)
  {
    var s := StateAt(confirmed, a);
    if a.Proposed? { ProposalExact(s, a.number, a.execution); } else { HeaderExact(s, a.h); }
  }

  lemma {:induction false} GapsAreTrue(hs: seq<Header>, accepts: seq<Accept>, n: nat)
    requires IsChain(hs, accepts) && n < |hs|
    ensures TrueGap(hs[n]) && hs[n].number == n
    decreases n
  {
    if n > 0 {
      GapsAreTrue(hs, accepts, n - 1);
      OneBlock(hs[n - 1], accepts[n - 1]);
    }
  }

  /** Along every accepted chain: the i8 gap is the true difference between the block's number and the
      execution it names, it lies in 1..max, and execution numbers never decrease. */
  lemma {:induction false} ChainGaps(hs: seq<Header>, accepts: seq<Accept>, i: nat, j: nat)
    requires IsChain(hs, accepts) && i <= j < |hs|
    ensures ExecutionNumber(hs[j]) == j - hs[j].gap
    ensures j > 0 ==> 1 <= hs[j].gap <= accepts[j - 1].max && ExecutionNumber(hs[j]) <= accepts[j - 1].executed
    ensures j > 0 && accepts[j - 1].Proposed? ==> accepts[j - 1].execution == ExecutionNumber(hs[j])
    ensures ExecutionNumber(hs[i]) <= ExecutionNumber(hs[j])
    decreases j
  {
    GapsAreTrue(hs, accepts, j);
    TrueExecutionNumber(hs[j]);
    if j > 0 {
      GapsAreTrue(hs, accepts, j - 1);
      TrueExecutionNumber(hs[j - 1]);
      OneBlock(hs[j - 1], accepts[j - 1]);
      if i < j { ChainGaps(hs, accepts, i, j - 1); }
    }
  }
}
