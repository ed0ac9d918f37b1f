/** Contract governance: weighted administrators propose, vote for and pass new administrators and new
    code; every version of the code is kept. */
module Governance {
  import opened Authorities
  import opened Aggregation

  type Code = nat
  type Hash = nat

  datatype Option<T> = None | Some(value: T)

  datatype Admin = Admin(threshold: nat, members: seq<Member>)

  /** `aggregate_admin`. */
  method AggregateAdmin(admin: Admin) returns (r: Admin)
    requires U32Weights(admin.members)
    ensures r == Admin(admin.threshold, Aggregated(admin.members))
    ensures DistinctAddresses(r.members) && (PositiveWeights(r.members) <==> NoneWraps(admin.members))
  {
    var members := MergeMembers(admin.members);
    AggregatedIs(admin.members);
    PositiveExactly(admin.members);
    r := Admin(admin.threshold, members);
  }

  // ---------------------------------------------------------------- votes

  /** The votes' weights as the code adds them up, wrapping around; an address that is no longer an
      admin counts nothing. */
  function VoteSum(ms: seq<Member>, votes: seq<Address>): nat
    decreases |votes|
  {
    if votes == [] then 0 else (VoteSum(ms, votes[..|votes| - 1]) + WeightIn(ms, votes[|votes| - 1])) % U32_LIMIT
  }

  lemma {:induction false} VoteSumWraps(ms: seq<Member>, votes: seq<Address>)
    ensures VoteSum(ms, votes) == ListWeight(ms, votes) % U32_LIMIT <= ListWeight(ms, votes)
    decreases |votes|
  {
    if votes != [] {
      VoteSumWraps(ms, votes[..|votes| - 1]);
      WrapAdd(ListWeight(ms, votes[..|votes| - 1]), WeightIn(ms, votes[|votes| - 1]));
    }
  }

  function Voted(votes: seq<Address>, sender: Address): seq<Address> {
    if sender in votes then votes else votes + [sender]
  }

  lemma VotedDistinct(votes: seq<Address>, sender: Address)
    requires Distinct(votes)
    ensures Distinct(Voted(votes, sender)) && sender in Voted(votes, sender)
  {
  }

  predicate Passes(admin: Admin, votes: seq<Address>) {
    VoteSum(admin.members, votes) >= admin.threshold
  }

  /** A proposal passes exactly when the weight of its voters, modulo 2^32, reaches the threshold. So what
      passes has the weight, and what has the weight passes as long as it fits 32 bits. */
  lemma PassesExactly(admin: Admin, votes: seq<Address>)
    requires DistinctAddresses(admin.members) && Distinct(votes)
    ensures Passes(admin, votes) <==> Wrapped(Weight(admin.members, Elements(votes))) >= admin.threshold
    ensures Passes(admin, votes) ==> Weight(admin.members, Elements(votes)) >= admin.threshold
    ensures Weight(admin.members, Elements(votes)) < U32_LIMIT ==>
      (Passes(admin, votes) <==> Weight(admin.members, Elements(votes)) >= admin.threshold)
  {
    VoteSumWraps(admin.members, votes);
    ListWeightIsSetWeight(admin.members, votes);
  }

  /** Two admins of weight 2^31 under the highest threshold: both votes together add up to zero. */
  lemma WeightLost()
    ensures var (admin, votes) := (Admin(U32_LIMIT - 1, [Member(1, HALF), Member(2, HALF)]), [1, 2]);
      DistinctAddresses(admin.members) && Distinct(votes)
      && Weight(admin.members, Elements(votes)) >= admin.threshold && !Passes(admin, votes)
  {
    var ms := [Member(1, HALF), Member(2, HALF)];
    var (admin, votes) := (Admin(U32_LIMIT - 1, ms), [1, 2]);
    assert ms[..1] == [Member(1, HALF)] && ms[..1][..0] == [];
    var s := Elements(votes);
    assert votes[0] in s && votes[1] in s;
    assert Weight(ms[..1][..0], s) == 0 && Weight(ms[..1], s) == HALF && ms[1].address in s;
    assert Weight(ms, s) == HALF + HALF;
    PassesExactly(admin, votes);
  }

  // ---------------------------------------------------------------- the calls

  datatype AdminProposal = AdminProposal(id: nat, admin: Admin, votes: seq<Address>)
  datatype CodeProposal = CodeProposal(id: nat, code: Code, votes: seq<Address>)

  datatype Contract = Contract(
    version: nat,
    admin: Admin,
    codes: map<nat, Code>,
    hashes: map<nat, Hash>,
    adminId: Option<nat>,
    adminProposal: Option<AdminProposal>,
    codeId: Option<nat>,
    codeProposal: Option<CodeProposal>)

  type Contracts = map<Address, Contract>

  datatype Call =
    | Create(contract: Address, code: Code, initOk: bool)
    | UpdateAdmin(contract: Address, admin: Admin)
    | UpdateAdminVote(contract: Address, id: nat)
    | UpdateCode(contract: Address, code: Code)
    | UpdateCodeVote(contract: Address, id: nat)

  datatype Error = Unsigned | InitFailed | AdminNotFound | NotAdmin | ProposalNotFound | IdNotMatch

  function Increased(id: nat): nat {
    (id + 1) % U32_LIMIT
  }

  function Created(sender: Address, code: Code, hash: Code -> Hash): Contract {
    Contract(1, Admin(1, [Member(sender, 1)]), map[1 := code], map[1 := hash(code)], None, None, None, None)
  }

  /** A vote for new admins, and what follows when it passes. */
  function AdminVote(c: Contract, sender: Address, p: AdminProposal): Contract {
    var p' := p.(votes := Voted(p.votes, sender));
    var c' := if Passes(c.admin, p'.votes) then c.(admin := p.admin, adminProposal := None) else c.(adminProposal := Some(p'));
    c'.(adminId := Some(Increased(p.id)))
  }

  function CodeVote(c: Contract, sender: Address, p: CodeProposal, hash: Code -> Hash): Contract {
    var p' := p.(votes := Voted(p.votes, sender));
    var v := Increased(c.version);
    var c' := if Passes(c.admin, p'.votes)
              then c.(version := v, codes := c.codes[v := p.code], hashes := c.hashes[v := hash(p.code)], codeProposal := None)
              else c.(codeProposal := Some(p'));
    c'.(codeId := Some(Increased(p.id)))
  }

  function IdOr1(id: Option<nat>): nat {
    if id.None? then 1 else id.value
  }

  function SenderError(cs: Contracts, a: Address, sender: Address): Option<Error> {
    if a !in cs then Some(AdminNotFound)
    else if sender !in MemberWeights(cs[a].admin.members) then Some(NotAdmin)
    else None
  }

  /** The error of a call, if it has one; a failed call leaves no trace. */
  function Refused(cs: Contracts, sender: Option<Address>, call: Call): Option<Error> {
    if sender.None? then Some(Unsigned)
    else match call
      case Create(_, _, initOk) => if initOk then None else Some(InitFailed)
      case UpdateAdmin(a, _) => SenderError(cs, a, sender.value)
      case UpdateCode(a, _) => SenderError(cs, a, sender.value)
      case UpdateAdminVote(a, id) =>
        if a !in cs || cs[a].adminProposal.None? then Some(ProposalNotFound)
        else if cs[a].adminProposal.value.id != id then Some(IdNotMatch)
        else SenderError(cs, a, sender.value)
      case UpdateCodeVote(a, id) =>
        if a !in cs || cs[a].codeProposal.None? then Some(ProposalNotFound)
        else if cs[a].codeProposal.value.id != id then Some(IdNotMatch)
        else SenderError(cs, a, sender.value)
  }

  function AdminProposalOf(c: Contract, call: Call): Option<AdminProposal> {
    match call
    case UpdateAdmin(_, admin) => Some(AdminProposal(IdOr1(c.adminId), Admin(admin.threshold, Aggregated(admin.members)), []))
    case UpdateAdminVote(_, _) => c.adminProposal
    case _ => None
  }

  function CodeProposalOf(c: Contract, call: Call): Option<CodeProposal> {
    match call
    case UpdateCode(_, code) => Some(CodeProposal(IdOr1(c.codeId), code, []))
    case UpdateCodeVote(_, _) => c.codeProposal
    case _ => None
  }

  function Changed(c: Contract, sender: Address, call: Call, hash: Code -> Hash): Contract {
    var (a, p) := (AdminProposalOf(c, call), CodeProposalOf(c, call));
    if a.Some? then AdminVote(c, sender, a.value) else if p.Some? then CodeVote(c, sender, p.value, hash) else c
  }

  function Apply(cs: Contracts, sender: Option<Address>, call: Call, hash: Code -> Hash): Contracts {
    if Refused(cs, sender, call).Some? then cs
    else if call.Create? then cs[call.contract := Created(sender.value, call.code, hash)]
    else if call.contract in cs then cs[call.contract := Changed(cs[call.contract], sender.value, call, hash)]
    else cs
  }

  // ---------------------------------------------------------------- what every call keeps

  ghost predicate AdminOk(admin: Admin) {
    DistinctAddresses(admin.members) && U32Weights(admin.members)
  }

  /** A stored proposal is the last one numbered, its voters are distinct. */
  ghost predicate ProposalsOk(c: Contract) {
    (c.adminProposal.Some? ==> c.adminId == Some(Increased(c.adminProposal.value.id)) && Distinct(c.adminProposal.value.votes) && AdminOk(c.adminProposal.value.admin))
    && (c.codeProposal.Some? ==> c.codeId == Some(Increased(c.codeProposal.value.id)) && Distinct(c.codeProposal.value.votes))
  }

  /** Code and hash are there for exactly the versions 1 .. current. */
  ghost predicate VersionsOk(c: Contract, hash: Code -> Hash) {
    c.version >= 1
    && (forall v: nat :: v in c.codes <==> 1 <= v <= c.version) && (forall v: nat :: v in c.hashes <==> 1 <= v <= c.version)
    && (forall v: nat :: v in c.codes ==> c.hashes[v] == hash(c.codes[v]))
  }

  ghost predicate ContractOk(c: Contract, hash: Code -> Hash) {
    AdminOk(c.admin) && ProposalsOk(c) && VersionsOk(c, hash)
  }

  ghost predicate Good(cs: Contracts, hash: Code -> Hash) {
    forall a :: a in cs ==> ContractOk(cs[a], hash)
  }

  /** What the surroundings owe: addresses of new contracts are new, weights are u32 values, and no
      contract has used up its version numbers. */
  ghost predicate Proper(cs: Contracts, call: Call) {
    match call
    case Create(a, _, _) => a !in cs
    case UpdateAdmin(a, admin) => U32Weights(admin.members)
    case UpdateCode(a, _) => a in cs ==> cs[a].version + 1 < U32_LIMIT
    case UpdateCodeVote(a, _) => a in cs ==> cs[a].version + 1 < U32_LIMIT
    case UpdateAdminVote(_, _) => true
  }

  lemma AdminVoteOk(c: Contract, sender: Address, p: AdminProposal, hash: Code -> Hash)
    requires ContractOk(c, hash) && Distinct(p.votes) && AdminOk(p.admin)
    ensures ContractOk(AdminVote(c, sender, p), hash)
  {
    hide Passes;
    VotedDistinct(p.votes, sender);
  }

  lemma CodeVoteOk(c: Contract, sender: Address, p: CodeProposal, hash: Code -> Hash)
    requires ContractOk(c, hash) && Distinct(p.votes) && c.version + 1 < U32_LIMIT
    ensures ContractOk(CodeVote(c, sender, p, hash), hash)
  {
    hide Passes;
    VotedDistinct(p.votes, sender);
  }

  lemma CreatedOk(sender: Address, code: Code, hash: Code -> Hash)
    ensures ContractOk(Created(sender, code, hash), hash)
  {
  }

  lemma ChangedOk(c: Contract, sender: Address, call: Call, hash: Code -> Hash)
    requires ContractOk(c, hash)
    requires call.UpdateAdmin? ==> U32Weights(call.admin.members)
    requires call.UpdateCode? || call.UpdateCodeVote? ==> c.version + 1 < U32_LIMIT
    ensures ContractOk(Changed(c, sender, call, hash), hash)
  {
    hide AdminVote, CodeVote;
    var (a, p) := (AdminProposalOf(c, call), CodeProposalOf(c, call));
    if a.Some? {
      if call.UpdateAdmin? { AggregatedIs(call.admin.members); }
      AdminVoteOk(c, sender, a.value, hash);
    } else if p.Some? {
      CodeVoteOk(c, sender, p.value, hash);
    }
  }

  lemma ApplyGood(cs: Contracts, sender: Option<Address>, call: Call, hash: Code -> Hash)
    requires Good(cs, hash) && Proper(cs, call)
    ensures Good(Apply(cs, sender, call, hash), hash)
  {
    hide Changed, Created, ContractOk, Refused;
    if Refused(cs, sender, call).None? {
      if call.Create? {
        SenderKnown(cs, sender, call);
        CreatedOk(sender.value, call.code, hash);
      } else if call.contract in cs {
        SenderKnown(cs, sender, call);
        ChangedOk(cs[call.contract], sender.value, call, hash);
      }
    }
  }

  lemma SenderKnown(cs: Contracts, sender: Option<Address>, call: Call)
    requires Refused(cs, sender, call).None?
    ensures sender.Some?
  {
  }

  ghost predicate KeepsCode(c: Contract, c': Contract) {
    c.version <= c'.version
    && (forall v :: v in c.codes ==> v in c'.codes && c'.codes[v] == c.codes[v])
    && (forall v :: v in c.hashes ==> v in c'.hashes && c'.hashes[v] == c.hashes[v])
  }

  lemma ChangedKeeps(c: Contract, sender: Address, call: Call, hash: Code -> Hash)
    requires VersionsOk(c, hash) && (call.UpdateCode? || call.UpdateCodeVote? ==> c.version + 1 < U32_LIMIT)
    ensures KeepsCode(c, Changed(c, sender, call, hash))
  {
    hide Passes, Aggregated, Voted;
  }

  /** Code once stored under a version is never touched again, and the version only goes up. */
  lemma CodeIsKept(cs: Contracts, sender: Option<Address>, call: Call, hash: Code -> Hash, a: Address)
    requires Good(cs, hash) && Proper(cs, call) && a in cs
    ensures var cs' := Apply(cs, sender, call, hash); a in cs' && KeepsCode(cs[a], cs'[a])
  {
    hide Changed, Created, Refused;
    assert ContractOk(cs[a], hash);
    if Refused(cs, sender, call).None? && call.contract == a && !call.Create? {
      SenderKnown(cs, sender, call);
      ChangedKeeps(cs[a], sender.value, call, hash);
    }
  }

  // ---------------------------------------------------------------- passed updates over runs

  /** An update that passed: the contract's admin at that moment and the voters. */
  datatype Pass = Pass(contract: Address, admin: Admin, voters: seq<Address>)

  function VotesFor(c: Contract, sender: Address, call: Call): Option<seq<Address>> {
    var (a, p) := (AdminProposalOf(c, call), CodeProposalOf(c, call));
    if a.Some? then Some(Voted(a.value.votes, sender)) else if p.Some? then Some(Voted(p.value.votes, sender)) else None
  }

  /** The update that a call makes pass, if any. */
  function PassOf(cs: Contracts, sender: Option<Address>, call: Call): Option<Pass> {
    if Refused(cs, sender, call).Some? || sender.None? || call.contract !in cs then None
    else
      var (c, votes) := (cs[call.contract], VotesFor(cs[call.contract], sender.value, call));
      if votes.Some? && Passes(c.admin, votes.value) then Some(Pass(call.contract, c.admin, votes.value)) else None
  }

  /** Different admins or a different version come from a passed update alone. */
  lemma ChangeNeedsPass(cs: Contracts, sender: Option<Address>, call: Call, hash: Code -> Hash, a: Address)
    requires Proper(cs, call) && a in cs
    ensures var cs' := Apply(cs, sender, call, hash);
      cs'[a].admin != cs[a].admin || cs'[a].version != cs[a].version ==>
        PassOf(cs, sender, call).Some? && PassOf(cs, sender, call).value.contract == a && PassOf(cs, sender, call).value.admin == cs[a].admin
  {
    hide Passes, Refused, Aggregated, Voted;
    if Refused(cs, sender, call).None? { SenderKnown(cs, sender, call); }
  }

  ghost predicate AdminEffect(c: Contract, c': Contract, proposed: Admin, sender: Address, passed: bool) {
    && (c'.version, c'.codes, c'.hashes, c'.codeId, c'.codeProposal) == (c.version, c.codes, c.hashes, c.codeId, c.codeProposal)
    && if passed then c'.admin == proposed && c'.adminProposal.None?
       else c'.admin == c.admin && c'.adminProposal.Some? && c'.adminProposal.value.admin == proposed && sender in c'.adminProposal.value.votes
  }

  ghost predicate CodeEffect(c: Contract, c': Contract, proposed: Code, sender: Address, passed: bool) {
    && (c'.admin, c'.adminId, c'.adminProposal) == (c.admin, c.adminId, c.adminProposal)
    && if passed then c'.version == c.version + 1 && c'.version in c'.codes && c'.codes[c'.version] == proposed && c'.codeProposal.None?
       else c'.version == c.version && c'.codeProposal.Some? && c'.codeProposal.value.code == proposed && sender in c'.codeProposal.value.votes
  }

  lemma AdminTakesEffect(c: Contract, sender: Address, p: AdminProposal)
    ensures AdminEffect(c, AdminVote(c, sender, p), p.admin, sender, Passes(c.admin, Voted(p.votes, sender)))
  {
    hide Passes;
  }

  lemma CodeTakesEffect(c: Contract, sender: Address, p: CodeProposal, hash: Code -> Hash)
    requires c.version + 1 < U32_LIMIT
    ensures CodeEffect(c, CodeVote(c, sender, p, hash), p.code, sender, Passes(c.admin, Voted(p.votes, sender)))
  {
    hide Passes;
  }

  /** What a vote brings about: with enough weight the proposed admins, or the proposed code under the
      next version, are in force and the proposal is gone; otherwise the proposal is stored with the
      sender among its voters. Nothing else of the contract changes. */
  lemma VoteTakesEffect(cs: Contracts, sender: Option<Address>, call: Call, hash: Code -> Hash)
    requires Proper(cs, call) && Refused(cs, sender, call).None? && !call.Create? && call.contract in cs
    ensures sender.Some?
    ensures var (c, c') := (cs[call.contract], Apply(cs, sender, call, hash)[call.contract]);
      var passed := PassOf(cs, sender, call).Some?;
      match call
      case UpdateAdmin(_, admin) => AdminEffect(c, c', Admin(admin.threshold, Aggregated(admin.members)), sender.value, passed)
      case UpdateAdminVote(_, _) => AdminEffect(c, c', c.adminProposal.value.admin, sender.value, passed)
      case UpdateCode(_, code) => CodeEffect(c, c', code, sender.value, passed)
      case UpdateCodeVote(_, _) => CodeEffect(c, c', c.codeProposal.value.code, sender.value, passed)
      case Create(_, _, _) => true
  {
    SenderKnown(cs, sender, call);
    hide Passes, Aggregated, AdminVote, CodeVote, AdminEffect, CodeEffect, Voted;
    var c := cs[call.contract];
    var (a, p) := (AdminProposalOf(c, call), CodeProposalOf(c, call));
    if a.Some? { AdminTakesEffect(c, sender.value, a.value); } else { CodeTakesEffect(c, sender.value, p.value, hash); }
  }

  /** The voters are different addresses whose weight, in the admin list of that moment, reaches its
      threshold. */
  ghost predicate Rightful(p: Pass) {
    Distinct(p.voters) && Weight(p.admin.members, Elements(p.voters)) >= p.admin.threshold
  }

  lemma PassIsRightful(cs: Contracts, sender: Option<Address>, call: Call, hash: Code -> Hash)
    requires Good(cs, hash) && PassOf(cs, sender, call).Some?
    ensures Rightful(PassOf(cs, sender, call).value)
  {
    hide Passes, Refused, Voted;
    var c := cs[call.contract];
    assert ContractOk(c, hash);
    var (a, p) := (AdminProposalOf(c, call), CodeProposalOf(c, call));
    VotedDistinct(if a.Some? then a.value.votes else p.value.votes, sender.value);
    PassesExactly(c.admin, VotesFor(c, sender.value, call).value);
  }

  datatype Request = Request(sender: Option<Address>, call: Call)
  datatype History = History(cs: Contracts, passes: seq<Pass>)

  function Run(requests: seq<Request>, hash: Code -> Hash): History
    decreases |requests|
  {
    if requests == [] then History(map[], [])
    else
      var (h, r) := (Run(requests[..|requests| - 1], hash), requests[|requests| - 1]);
      var pass := PassOf(h.cs, r.sender, r.call);
      History(Apply(h.cs, r.sender, r.call, hash), if pass.Some? then h.passes + [pass.value] else h.passes)
  }

  ghost predicate ProperRun(requests: seq<Request>, hash: Code -> Hash) {
    forall k :: 0 <= k < |requests| ==> Proper(Run(requests[..k], hash).cs, requests[k].call)
  }

  lemma ProperPrefix(requests: seq<Request>, hash: Code -> Hash, n: nat)
    requires ProperRun(requests, hash) && n <= |requests|
    ensures ProperRun(requests[..n], hash)
  {
    var before := requests[..n];
    forall k | 0 <= k < n ensures Proper(Run(before[..k], hash).cs, before[k].call) {
      assert before[..k] == requests[..k] && before[k] == requests[k];
    }
  }

  /** Over every run of calls: admins are distinct, proposals are numbered one below their counter, code
      and hash exist for exactly the versions up to the current one, and every update that passed was
      carried by distinct voters of enough weight in the admin list it replaced. */
  lemma {:induction false} RunGood(requests: seq<Request>, hash: Code -> Hash)
    requires ProperRun(requests, hash)
    ensures var h := Run(requests, hash); Good(h.cs, hash) && forall i :: 0 <= i < |h.passes| ==> Rightful(h.passes[i])
    decreases |requests|
  {
    hide Proper, Apply, ContractOk, PassOf, Rightful;
    if requests != [] {
      var k := |requests| - 1;
      ProperPrefix(requests, hash, k);
      RunGood(requests[..k], hash);
      var (h, r) := (Run(requests[..k], hash), requests[k]);
      ApplyGood(h.cs, r.sender, r.call, hash);
      if PassOf(h.cs, r.sender, r.call).Some? { PassIsRightful(h.cs, r.sender, r.call, hash); }
    }
  }

  // ---------------------------------------------------------------- positive weights

  ghost predicate PositiveAdmins(c: Contract) {
    PositiveWeights(c.admin.members) && (c.adminProposal.Some? ==> PositiveWeights(c.adminProposal.value.admin.members))
  }

  ghost predicate AllPositive(cs: Contracts) {
    forall a :: a in cs ==> PositiveAdmins(cs[a])
  }

  lemma ChangedPositive(c: Contract, sender: Address, call: Call, hash: Code -> Hash)
    requires PositiveAdmins(c) && (call.UpdateAdmin? ==> U32Weights(call.admin.members) && NoneWraps(call.admin.members))
    ensures PositiveAdmins(Changed(c, sender, call, hash))
  {
    hide Passes, Aggregated, NoneWraps;
    if call.UpdateAdmin? { PositiveExactly(call.admin.members); }
  }

  /** Over every run whose proposed admin lists do not wrap to zero, every stored and every proposed admin
      has positive weight. */
  lemma {:induction false} RunPositive(requests: seq<Request>, hash: Code -> Hash)
    requires ProperRun(requests, hash)
    requires forall k :: 0 <= k < |requests| && requests[k].call.UpdateAdmin? ==> NoneWraps(requests[k].call.admin.members)
    ensures AllPositive(Run(requests, hash).cs)
    decreases |requests|
  {
    hide Changed, Refused, PassOf, NoneWraps;
    if requests != [] {
      var k := |requests| - 1;
      ProperPrefix(requests, hash, k);
      RunPositive(requests[..k], hash);
      var (cs, sender, call) := (Run(requests[..k], hash).cs, requests[k].sender, requests[k].call);
      assert Proper(cs, call);
      if Refused(cs, sender, call).None? {
        SenderKnown(cs, sender, call);
        if !call.Create? && call.contract in cs { ChangedPositive(cs[call.contract], sender.value, call, hash); }
      }
    }
  }

  /** And a run in which a list does wrap leaves a contract to an admin without weight. */
  lemma RunWrapsAway(hash: Code -> Hash)
    ensures var requests := [Request(Some(1), Create(9, 0, true)), Request(Some(1), UpdateAdmin(9, Admin(1, [Member(1, HALF), Member(1, HALF)])))];
      ProperRun(requests, hash) && 9 in Run(requests, hash).cs && Run(requests, hash).cs[9].admin == Admin(1, [Member(1, 0)])
  {
    WrappedAway();
    var ms := [Member(1, HALF), Member(1, HALF)];
    var (first, second) := (Request(Some(1), Create(9, 0, true)), Request(Some(1), UpdateAdmin(9, Admin(1, ms))));
    var requests := [first, second];
    assert requests[..1] == [first] && requests[..1][..0] == [] && requests[..0] == [];
    var cs := Run(requests[..1], hash).cs;
    assert Run(requests[..1][..0], hash) == History(map[], []);
    assert cs == Apply(map[], first.sender, first.call, hash);
    assert cs == map[9 := Created(1, 0, hash)];
    CreatorPasses(cs[9], hash);
    hide Aggregated;
    var c := Changed(cs[9], 1, second.call, hash);
    assert c.admin == Admin(1, Aggregated(ms));
  }

  lemma CreatorPasses(c: Contract, hash: Code -> Hash)
    requires c == Created(1, 0, hash)
    ensures Passes(c.admin, Voted([], 1)) && 1 in MemberWeights(c.admin.members)
  {
    var (ms, votes) := ([Member(1, 1)], [1]);
    assert ms[..0] == [] && votes[..0] == [] && Voted([], 1) == votes;
    assert MemberWeights(ms) == map[1 := 1];
    assert WeightIn(ms, 1) == 1;
    hide MemberWeights, WeightIn;
    assert VoteSum(ms, votes[..0]) == 0;
    assert VoteSum(ms, votes) == 1;
  }

  /** Between any two points of a run, every version's code and hash stay what they were. */
  lemma {:induction false} HistoryIsKept(requests: seq<Request>, hash: Code -> Hash, n: nat, a: Address)
    requires ProperRun(requests, hash) && n <= |requests| && a in Run(requests[..n], hash).cs
    ensures a in Run(requests, hash).cs && KeepsCode(Run(requests[..n], hash).cs[a], Run(requests, hash).cs[a])
    decreases |requests|
  {
    hide Proper, Apply, Good, PassOf;
    if n == |requests| {
      assert requests[..n] == requests;
    } else {
      var k := |requests| - 1;
      ProperPrefix(requests, hash, k);
      assert requests[..k][..n] == requests[..n];
      HistoryIsKept(requests[..k], hash, n, a);
      RunGood(requests[..k], hash);
      var (h, r) := (Run(requests[..k], hash), requests[k]);
      CodeIsKept(h.cs, r.sender, r.call, hash, a);
    }
  }

  // ---------------------------------------------------------------- what each call brings about

  /** The error of a call: first the signature, then the contract or its proposal, then the proposal's
      number, and last whether the sender is an administrator. */
  function ErrorOf(cs: Contracts, sender: Option<Address>, call: Call): Option<Error> {
    if sender.None? then Some(Unsigned)
    else if call.Create? then if call.initOk then None else Some(InitFailed)
    else
      var known := call.contract in cs;
      if call.UpdateAdminVote? && (!known || cs[call.contract].adminProposal.None?) then Some(ProposalNotFound)
      else if call.UpdateCodeVote? && (!known || cs[call.contract].codeProposal.None?) then Some(ProposalNotFound)
      else if call.UpdateAdminVote? && cs[call.contract].adminProposal.value.id != call.id then Some(IdNotMatch)
      else if call.UpdateCodeVote? && cs[call.contract].codeProposal.value.id != call.id then Some(IdNotMatch)
      else if !known then Some(AdminNotFound)
      else if !IsMember(cs[call.contract].admin.members, sender.value) then Some(NotAdmin)
      else None
  }

  /** These voters carry an update of the contract. */
  predicate Carry(c: Contract, voters: set<Address>) {
    Wrapped(Weight(c.admin.members, voters)) >= c.admin.threshold
  }

  predicate VotersAre(votes: seq<Address>, voters: set<Address>) {
    Distinct(votes) && Elements(votes) == voters
  }

  /** A proposal for new administrators with these voters, who either carry it, or stay with it. */
  ghost predicate AdminOutcome(c: Contract, c': Contract, id: nat, proposed: Admin, voters: set<Address>) {
    && c' == c.(admin := c'.admin, adminId := Some((id + 1) % U32_LIMIT), adminProposal := c'.adminProposal)
    && if Carry(c, voters) then c'.admin == proposed && c'.adminProposal == None
       else
         && c'.admin == c.admin && c'.adminProposal.Some?
         && var p := c'.adminProposal.value; p.id == id && p.admin == proposed && VotersAre(p.votes, voters)
  }

  ghost predicate CodeOutcome(c: Contract, c': Contract, id: nat, proposed: Code, voters: set<Address>, hash: Code -> Hash) {
    var v := c.version + 1;
    if Carry(c, voters)
    then c' == c.(version := v, codes := c.codes[v := proposed], hashes := c.hashes[v := hash(proposed)],
                  codeId := Some((id + 1) % U32_LIMIT), codeProposal := None)
    else
      && c' == c.(codeId := Some((id + 1) % U32_LIMIT), codeProposal := c'.codeProposal) && c'.codeProposal.Some?
      && var p := c'.codeProposal.value; p.id == id && p.code == proposed && VotersAre(p.votes, voters)
  }

  /** A call with an error changes nothing. A creation adds the contract, its creator the only administrator.
      Any other call changes its contract alone: a new proposal has its proposer for a voter, a vote adds
      the sender to the voters the proposal had. */
  ghost predicate Outcome(cs: Contracts, sender: Option<Address>, call: Call, hash: Code -> Hash, cs': Contracts) {
    if ErrorOf(cs, sender, call).Some? then cs' == cs
    else if call.Create? then
      cs' == cs[call.contract := Contract(1, Admin(1, [Member(sender.value, 1)]), map[1 := call.code], map[1 := hash(call.code)], None, None, None, None)]
    else
      && call.contract in cs && call.contract in cs' && cs' == cs[call.contract := cs'[call.contract]]
      && var (c, c') := (cs[call.contract], cs'[call.contract]);
      match call
      case UpdateAdmin(_, admin) =>
        AdminOutcome(c, c', if c.adminId.Some? then c.adminId.value else 1, Admin(admin.threshold, Aggregated(admin.members)), {sender.value})
      case UpdateAdminVote(_, id) =>
        c.adminProposal.Some? && AdminOutcome(c, c', id, c.adminProposal.value.admin, Elements(c.adminProposal.value.votes) + {sender.value})
      case UpdateCode(_, code) => CodeOutcome(c, c', if c.codeId.Some? then c.codeId.value else 1, code, {sender.value}, hash)
      case UpdateCodeVote(_, id) =>
        c.codeProposal.Some? && CodeOutcome(c, c', id, c.codeProposal.value.code, Elements(c.codeProposal.value.votes) + {sender.value}, hash)
      case Create(_, _, _) => true
  }

  lemma VotedAre(votes: seq<Address>, sender: Address)
    requires Distinct(votes)
    ensures VotersAre(Voted(votes, sender), Elements(votes) + {sender})
  {
    VotedDistinct(votes, sender);
  }

  lemma CarriedExactly(c: Contract, votes: seq<Address>, sender: Address)
    requires DistinctAddresses(c.admin.members) && Distinct(votes)
    ensures Passes(c.admin, Voted(votes, sender)) <==> Carry(c, Elements(votes) + {sender})
  {
    VotedAre(votes, sender);
    PassesExactly(c.admin, Voted(votes, sender));
  }

  lemma AdminVoteDoes(c: Contract, sender: Address, p: AdminProposal)
    requires DistinctAddresses(c.admin.members) && Distinct(p.votes)
    ensures AdminOutcome(c, AdminVote(c, sender, p), p.id, p.admin, Elements(p.votes) + {sender})
  {
    hide Passes, Carry, Voted;
    VotedAre(p.votes, sender);
    CarriedExactly(c, p.votes, sender);
  }

  lemma CodeVoteDoes(c: Contract, sender: Address, p: CodeProposal, hash: Code -> Hash)
    requires DistinctAddresses(c.admin.members) && Distinct(p.votes) && c.version + 1 < U32_LIMIT
    ensures CodeOutcome(c, CodeVote(c, sender, p, hash), p.id, p.code, Elements(p.votes) + {sender}, hash)
  {
    hide Passes, Carry, Voted;
    VotedAre(p.votes, sender);
    CarriedExactly(c, p.votes, sender);
  }

  lemma ErrorIs(cs: Contracts, sender: Option<Address>, call: Call, hash: Code -> Hash)
    requires Good(cs, hash)
    ensures Refused(cs, sender, call) == ErrorOf(cs, sender, call)
  {
    hide ProposalsOk, VersionsOk;
    if sender.Some? && call.contract in cs {
      assert ContractOk(cs[call.contract], hash);
      MemberWeightsAgree(cs[call.contract].admin.members, sender.value);
    }
  }

  /** Every call, on good contracts, has its outcome. */
  lemma OutcomeOf(cs: Contracts, sender: Option<Address>, call: Call, hash: Code -> Hash)
    requires Good(cs, hash) && Proper(cs, call)
    ensures Refused(cs, sender, call) == ErrorOf(cs, sender, call) && Outcome(cs, sender, call, hash, Apply(cs, sender, call, hash))
  {
    hide Refused, ErrorOf, AdminVote, CodeVote, AdminOutcome, CodeOutcome, VersionsOk, Aggregated;
    ErrorIs(cs, sender, call, hash);
    if Refused(cs, sender, call).None? {
      RefusedNot(cs, sender, call);
      if !call.Create? {
        var c := cs[call.contract];
        assert ContractOk(c, hash);
        var (a, p) := (AdminProposalOf(c, call), CodeProposalOf(c, call));
        assert Elements([]) + {sender.value} == {sender.value};
        if a.Some? { AdminVoteDoes(c, sender.value, a.value); } else { CodeVoteDoes(c, sender.value, p.value, hash); }
      }
    }
  }

  lemma RefusedNot(cs: Contracts, sender: Option<Address>, call: Call)
    requires Refused(cs, sender, call).None?
    ensures sender.Some? && (!call.Create? ==> call.contract in cs)
    ensures call.UpdateAdminVote? ==> cs[call.contract].adminProposal.Some? && cs[call.contract].adminProposal.value.id == call.id
    ensures call.UpdateCodeVote? ==> cs[call.contract].codeProposal.Some? && cs[call.contract].codeProposal.value.id == call.id
  {
  }

  // ---------------------------------------------------------------- the voters of a proposal over runs

  datatype Supporters = Supporters(admins: set<Address>, coders: set<Address>)

  /** A call without an error makes its sender a supporter: the only one of a proposal it opens, one more of
      a proposal it votes for. */
  function Supported(k: Supporters, cs: Contracts, r: Request, a: Address): Supporters {
    if r.sender.None? || r.call.contract != a || ErrorOf(cs, r.sender, r.call).Some? then k
    else match r.call
      case UpdateAdmin(_, _) => k.(admins := {r.sender.value})
      case UpdateAdminVote(_, _) => k.(admins := k.admins + {r.sender.value})
      case UpdateCode(_, _) => k.(coders := {r.sender.value})
      case UpdateCodeVote(_, _) => k.(coders := k.coders + {r.sender.value})
      case Create(_, _, _) => k
  }

  /** Of contract `a`: who opened the last proposals, and who voted for them since. */
  function SupportersOf(requests: seq<Request>, hash: Code -> Hash, a: Address): Supporters
    decreases |requests|
  {
    if requests == [] then Supporters({}, {})
    else
      var (before, r) := (requests[..|requests| - 1], requests[|requests| - 1]);
      Supported(SupportersOf(before, hash, a), Run(before, hash).cs, r, a)
  }

  ghost predicate SupportersAre(cs: Contracts, a: Address, k: Supporters) {
    a in cs ==>
      && (cs[a].adminProposal.Some? ==> Elements(cs[a].adminProposal.value.votes) == k.admins)
      && (cs[a].codeProposal.Some? ==> Elements(cs[a].codeProposal.value.votes) == k.coders)
  }

  lemma SupportersStep(cs: Contracts, r: Request, hash: Code -> Hash, cs': Contracts, a: Address, k: Supporters)
    requires SupportersAre(cs, a, k) && Outcome(cs, r.sender, r.call, hash, cs')
    ensures SupportersAre(cs', a, Supported(k, cs, r, a))
  {
    hide Carry, ErrorOf;
    if ErrorOf(cs, r.sender, r.call).None? { SenderThere(cs, r.sender, r.call); }
  }

  lemma SenderThere(cs: Contracts, sender: Option<Address>, call: Call)
    requires ErrorOf(cs, sender, call).None?
    ensures sender.Some?
  {
  }

  /** Over every run: the voters of a stored proposal are exactly the one who opened it and those who have
      voted for it since. */
  lemma {:induction false} VotersOverRuns(requests: seq<Request>, hash: Code -> Hash, a: Address)
    requires ProperRun(requests, hash)
    ensures SupportersAre(Run(requests, hash).cs, a, SupportersOf(requests, hash, a))
    decreases |requests|
  {
    hide Apply, PassOf, ErrorOf, Good, Proper, Outcome, Supported, SupportersAre;
    if requests == [] {
      NobodyYet(a);
    } else {
      var (k, r) := (|requests| - 1, requests[|requests| - 1]);
      ProperPrefix(requests, hash, k);
      VotersOverRuns(requests[..k], hash, a);
      RunGood(requests[..k], hash);
      var cs := Run(requests[..k], hash).cs;
      OutcomeOf(cs, r.sender, r.call, hash);
      SupportersStep(cs, r, hash, Apply(cs, r.sender, r.call, hash), a, SupportersOf(requests[..k], hash, a));
    }
  }

  lemma NobodyYet(a: Address)
    ensures SupportersAre(map[], a, Supporters({}, {}))
  {
  }

  // ---------------------------------------------------------------- the module as an object

  class Module {
    const hash: Code -> Hash
    var contracts: Contracts

    constructor (hash: Code -> Hash)
      ensures this.hash == hash && contracts == map[]
    {
      this.hash, contracts := hash, map[];
    }

    method SumVotes(members: seq<Member>, votes: seq<Address>) returns (sum: nat)
      ensures sum == VoteSum(members, votes)
    {
      sum := 0;
      var weights := MemberWeights(members);
      for i := 0 to |votes|
        invariant sum == VoteSum(members, votes[..i])
      {
        assert votes[..i + 1][..i] == votes[..i];
        sum := (sum + if votes[i] in weights then weights[votes[i]] else 0) % U32_LIMIT;
      }
      assert votes[..|votes|] == votes;
    }

    method AdminVoteAndPass(a: Address, sender: Address, proposal: AdminProposal)
      requires a in contracts
      modifies this
      ensures contracts == old(contracts)[a := AdminVote(old(contracts)[a], sender, proposal)]
      ensures DistinctAddresses(old(contracts)[a].admin.members) && Distinct(proposal.votes) ==>
        AdminOutcome(old(contracts)[a], contracts[a], proposal.id, proposal.admin, Elements(proposal.votes) + {sender})
    {
      if DistinctAddresses(contracts[a].admin.members) && Distinct(proposal.votes) { AdminVoteDoes(contracts[a], sender, proposal); }
      hide AdminOutcome;
      var (c, p) := (contracts[a], proposal);
      if sender !in p.votes { p := p.(votes := p.votes + [sender]); }
      var sum := SumVotes(c.admin.members, p.votes);
      if sum >= c.admin.threshold {
        c := c.(admin := p.admin, adminProposal := None);
      } else {
        c := c.(adminProposal := Some(p));
      }
      c := c.(adminId := Some((p.id + 1) % U32_LIMIT));
      contracts := contracts[a := c];
    }

    method CodeVoteAndPass(a: Address, sender: Address, proposal: CodeProposal)
      requires a in contracts
      modifies this
      ensures contracts == old(contracts)[a := CodeVote(old(contracts)[a], sender, proposal, hash)]
      ensures DistinctAddresses(old(contracts)[a].admin.members) && Distinct(proposal.votes) && old(contracts)[a].version + 1 < U32_LIMIT ==>
        CodeOutcome(old(contracts)[a], contracts[a], proposal.id, proposal.code, Elements(proposal.votes) + {sender}, hash)
    {
      if DistinctAddresses(contracts[a].admin.members) && Distinct(proposal.votes) && contracts[a].version + 1 < U32_LIMIT {
        CodeVoteDoes(contracts[a], sender, proposal, hash);
      }
      hide CodeOutcome;
      var (c, p) := (contracts[a], proposal);
      if sender !in p.votes { p := p.(votes := p.votes + [sender]); }
      var sum := SumVotes(c.admin.members, p.votes);
      if sum >= c.admin.threshold {
        var version := (c.version + 1) % U32_LIMIT;
        c := c.(version := version, codes := c.codes[version := p.code], hashes := c.hashes[version := hash(p.code)], codeProposal := None);
      } else {
        c := c.(codeProposal := Some(p));
      }
      c := c.(codeId := Some((p.id + 1) % U32_LIMIT));
      contracts := contracts[a := c];
    }

    /** Exactly the current administrators of an existing contract get through. */
    method VerifySender(sender: Address, a: Address) returns (error: Option<Error>)
      requires Good(contracts, hash)
      ensures error == SenderError(contracts, a, sender)
      ensures error.None? <==> a in contracts && IsMember(contracts[a].admin.members, sender)
    {
      if a !in contracts { return Some(AdminNotFound); }
      assert ContractOk(contracts[a], hash);
      MemberWeightsAgree(contracts[a].admin.members, sender);
      if sender !in MemberWeights(contracts[a].admin.members) { return Some(NotAdmin); }
      error := None;
    }

    /** A signed creation whose initialisation succeeds adds one contract at version 1, of which its creator
        is the sole administrator; anything else adds nothing. */
    method CreateContract(sender: Option<Address>, a: Address, code: Code, initOk: bool) returns (error: Option<Error>)
      requires Good(contracts, hash)
      modifies this
      ensures error == Refused(old(contracts), sender, Create(a, code, initOk))
      ensures contracts == Apply(old(contracts), sender, Create(a, code, initOk), hash)
      ensures error.None? <==> sender.Some? && initOk
      ensures error.None? ==> a in contracts && contracts - {a} == old(contracts) - {a}
      ensures error.None? ==> contracts[a].version == 1 && contracts[a].codes == map[1 := code] && PositiveAdmins(contracts[a])
      ensures error.None? ==> forall b :: IsMember(contracts[a].admin.members, b) <==> b == sender.value
      ensures error.Some? ==> contracts == old(contracts)
      ensures a !in old(contracts) ==> Good(contracts, hash) && Outcome(old(contracts), sender, Create(a, code, initOk), hash, contracts)
    {
      if a !in contracts {
        ApplyGood(contracts, sender, Create(a, code, initOk), hash);
        OutcomeOf(contracts, sender, Create(a, code, initOk), hash);
      }
      if sender.None? { return Some(Unsigned); }
      if !initOk { return Some(InitFailed); }
      contracts := contracts[a := Contract(1, Admin(1, [Member(sender.value, 1)]), map[1 := code], map[1 := hash(code)], None, None, None, None)];
      assert contracts[a].admin.members[0].address == sender.value;
      error := None;
    }

    method ProposeAdmin(sender: Option<Address>, a: Address, admin: Admin) returns (error: Option<Error>)
      requires Good(contracts, hash) && U32Weights(admin.members)
      modifies this
      ensures error == Refused(old(contracts), sender, UpdateAdmin(a, admin))
      ensures contracts == Apply(old(contracts), sender, UpdateAdmin(a, admin), hash)
      ensures Good(contracts, hash)
      ensures error == ErrorOf(old(contracts), sender, UpdateAdmin(a, admin))
      ensures Outcome(old(contracts), sender, UpdateAdmin(a, admin), hash, contracts)
    {
      hide ContractOk, AdminVote, Outcome, ErrorOf;
      ApplyGood(contracts, sender, UpdateAdmin(a, admin), hash);
      OutcomeOf(contracts, sender, UpdateAdmin(a, admin), hash);
      if sender.None? { return Some(Unsigned); }
      error := VerifySender(sender.value, a);
      if error.Some? { return; }
      var proposed := AggregateAdmin(admin);
      AdminVoteAndPass(a, sender.value, AdminProposal(IdOr1(contracts[a].adminId), proposed, []));
    }

    method VoteAdmin(sender: Option<Address>, a: Address, id: nat) returns (error: Option<Error>)
      requires Good(contracts, hash)
      modifies this
      ensures error == Refused(old(contracts), sender, UpdateAdminVote(a, id))
      ensures contracts == Apply(old(contracts), sender, UpdateAdminVote(a, id), hash)
      ensures Good(contracts, hash)
      ensures error == ErrorOf(old(contracts), sender, UpdateAdminVote(a, id))
      ensures Outcome(old(contracts), sender, UpdateAdminVote(a, id), hash, contracts)
    {
      hide ContractOk, AdminVote, Outcome, ErrorOf;
      ApplyGood(contracts, sender, UpdateAdminVote(a, id), hash);
      OutcomeOf(contracts, sender, UpdateAdminVote(a, id), hash);
      if sender.None? { return Some(Unsigned); }
      if a !in contracts || contracts[a].adminProposal.None? { return Some(ProposalNotFound); }
      var proposal := contracts[a].adminProposal.value;
      if proposal.id != id { return Some(IdNotMatch); }
      error := VerifySender(sender.value, a);
      if error.Some? { return; }
      AdminVoteAndPass(a, sender.value, proposal);
    }

    method ProposeCode(sender: Option<Address>, a: Address, code: Code) returns (error: Option<Error>)
      requires Good(contracts, hash)
      modifies this
      ensures error == Refused(old(contracts), sender, UpdateCode(a, code))
      ensures contracts == Apply(old(contracts), sender, UpdateCode(a, code), hash)
      ensures Proper(old(contracts), UpdateCode(a, code)) ==> Good(contracts, hash)
      ensures error == ErrorOf(old(contracts), sender, UpdateCode(a, code))
      ensures Proper(old(contracts), UpdateCode(a, code)) ==> Outcome(old(contracts), sender, UpdateCode(a, code), hash, contracts)
    {
      hide ContractOk, CodeVote, Outcome, ErrorOf;
      ErrorIs(contracts, sender, UpdateCode(a, code), hash);
      if Proper(contracts, UpdateCode(a, code)) {
        ApplyGood(contracts, sender, UpdateCode(a, code), hash);
        OutcomeOf(contracts, sender, UpdateCode(a, code), hash);
      }
      if sender.None? { return Some(Unsigned); }
      error := VerifySender(sender.value, a);
      if error.Some? { return; }
      CodeVoteAndPass(a, sender.value, CodeProposal(IdOr1(contracts[a].codeId), code, []));
    }

    method VoteCode(sender: Option<Address>, a: Address, id: nat) returns (error: Option<Error>)
      requires Good(contracts, hash)
      modifies this
      ensures error == Refused(old(contracts), sender, UpdateCodeVote(a, id))
      ensures contracts == Apply(old(contracts), sender, UpdateCodeVote(a, id), hash)
      ensures Proper(old(contracts), UpdateCodeVote(a, id)) ==> Good(contracts, hash)
      ensures error == ErrorOf(old(contracts), sender, UpdateCodeVote(a, id))
      ensures Proper(old(contracts), UpdateCodeVote(a, id)) ==> Outcome(old(contracts), sender, UpdateCodeVote(a, id), hash, contracts)
    {
      hide ContractOk, CodeVote, Outcome, ErrorOf;
      ErrorIs(contracts, sender, UpdateCodeVote(a, id), hash);
      if Proper(contracts, UpdateCodeVote(a, id)) {
        ApplyGood(contracts, sender, UpdateCodeVote(a, id), hash);
        OutcomeOf(contracts, sender, UpdateCodeVote(a, id), hash);
      }
      if sender.None? { return Some(Unsigned); }
      if a !in contracts || contracts[a].codeProposal.None? { return Some(ProposalNotFound); }
      var proposal := contracts[a].codeProposal.value;
      if proposal.id != id { return Some(IdNotMatch); }
      error := VerifySender(sender.value, a);
      if error.Some? { return; }
      CodeVoteAndPass(a, sender.value, proposal);
    }
  }
}
