/** The broker between a language model and the payment client (llm_agent/broker.py) and the loop that
    drives it (llm_agent/loop.py). The model and the server are arbitrary: what they say is a function
    of how often they have been asked. */
module Broker {
  import opened Text

  datatype Config = Config(maxAmount: int, currency: string, maxConsumes: nat)

  /** A tool call as the argument check leaves it; `Malformed` stands for everything it refuses. */
  datatype Tool =
    | GetDelegation
    | GetPaymentAuthority
    | ProposePayment(merchant: string, amount: int, currency: string)
    | ConfirmPayment(authorizationId: string)
    | ReadProof(transactionId: string)
    | Malformed(code: string)

  /** The client rejects with a protocol error, answers, or anything else goes wrong. */
  datatype Answer<+T> = Rejected | Said(value: T) | Broken

  datatype Governance = Governance(decision: string, authorizationId: string)

  /** The n-th request of a run gets the n-th answer; `name` is the transaction id drawn for it. */
  datatype Server = Server(intent: nat -> Answer<Governance>, consume: nat -> Answer<string>,
                           proof: nat -> Answer<string>, authority: nat -> Answer<string>, name: nat -> string)

  datatype Pending = Pending(transactionId: string, merchant: string, amount: int, currency: string)

  /** What crossed the wire, in order, with what came of it. */
  datatype Event =
    | Proposed(transactionId: string, amount: int, currency: string)
    | Issued(authorizationId: string, amount: int)
    | Sent(authorizationId: string)
    | Executed(authorizationId: string)
    | Failed(authorizationId: string)
    | ProofAsked(transactionId: string)
    | AuthorityAsked

  datatype State = State(pending: map<string, Pending>, known: set<string>, consumes: nat, wire: seq<Event>)

  datatype Result = Refused(code: string) | Ok(text: string) | Crash

  function Start(): State {
    State(map[], {}, 0, [])
  }

  function Propose(cfg: Config, sv: Server, b: State, merchant: string, amount: int, currency: string): (State, Result) {
    if amount <= 0 then (b, Refused("BAD_AMOUNT"))
    else if amount > cfg.maxAmount then (b, Refused("AMOUNT_OVER_LIMIT"))
    else if Upper(currency) != Upper(cfg.currency) then (b, Refused("UNSUPPORTED_CURRENCY"))
    else
      var n := |b.wire|;
      var tx := sv.name(n);
      var asked := b.(known := b.known + {tx}, wire := b.wire + [Proposed(tx, amount, cfg.currency)]);
      match sv.intent(n)
      case Rejected => (asked, Refused("SERVER_REJECTED"))
      case Broken => (asked, Crash)
      case Said(g) =>
        if g.decision != "allow" then (asked, Refused("NOT_ALLOWED"))
        else if g.authorizationId == "" then (asked, Refused("NO_AUTHORIZATION"))
        else (asked.(pending := asked.pending[g.authorizationId := Pending(tx, merchant, amount, cfg.currency)],
                     wire := asked.wire + [Issued(g.authorizationId, amount)]),
              Ok(g.authorizationId))
  }

  function Confirm(cfg: Config, sv: Server, b: State, id: string): (State, Result) {
    if b.consumes >= cfg.maxConsumes then (b, Refused("CONSUME_LIMIT"))
    else if id !in b.pending then (b, Refused("UNKNOWN_AUTHORIZATION"))
    else
      var n := |b.wire|;
      var popped := b.(pending := b.pending - {id});
      match sv.consume(n)
      case Rejected => (popped.(wire := b.wire + [Sent(id), Failed(id)]), Refused("SERVER_REJECTED"))
      case Broken => (popped.(wire := b.wire + [Sent(id), Failed(id)]), Crash)
      case Said(state) => (popped.(consumes := b.consumes + 1, wire := b.wire + [Sent(id), Executed(id)]), Ok(state))
  }

  function Relayed(b: State, a: Answer<string>): (State, Result) {
    match a
    case Rejected => (b, Refused("SERVER_REJECTED"))
    case Broken => (b, Crash)
    case Said(text) => (b, Ok(text))
  }

  /** `execute`: one tool call of the model. */
  function Executes(cfg: Config, sv: Server, b: State, t: Tool): (State, Result) {
    match t
    case Malformed(code) => (b, Refused(code))
    case GetDelegation => (b, Ok(cfg.currency))
    case GetPaymentAuthority => Relayed(b.(wire := b.wire + [AuthorityAsked]), sv.authority(|b.wire|))
    case ProposePayment(merchant, amount, currency) => Propose(cfg, sv, b, merchant, amount, currency)
    case ConfirmPayment(id) => Confirm(cfg, sv, b, id)
    case ReadProof(tx) =>
      if tx !in b.known then (b, Refused("UNKNOWN_TRANSACTION"))
      else Relayed(b.(wire := b.wire + [ProofAsked(tx)]), sv.proof(|b.wire|))
  }

  // ------------------------------------------------------------------ what the model may make the broker do

  /** A proposal reaches the server exactly when its amount is positive and within the cap and its currency is the
      broker's but for case; it goes out in the broker's currency under a fresh transaction id, and becomes pending
      exactly when the server allows it and names an authorization. */
  lemma ProposeSays(cfg: Config, sv: Server, b: State, merchant: string, amount: int, currency: string)
    ensures var (after, r) := Propose(cfg, sv, b, merchant, amount, currency);
            var sent := 0 < amount <= cfg.maxAmount && EqualButCase(currency, cfg.currency);
            var a := sv.intent(|b.wire|);
            var won := a.Said? && a.value.decision == "allow" && a.value.authorizationId != "";
            && (!sent ==> after == b && r.Refused?)
            && (sent ==> after.consumes == b.consumes && after.known == b.known + {sv.name(|b.wire|)}
                         && after.wire == b.wire + [Proposed(sv.name(|b.wire|), amount, cfg.currency)] + (if won then [Issued(a.value.authorizationId, amount)] else [])
                         && (r.Ok? <==> won) && (won ==> r == Ok(a.value.authorizationId)) && (r.Crash? <==> a.Broken?)
                         && after.pending == if won then b.pending[a.value.authorizationId := Pending(sv.name(|b.wire|), merchant, amount, cfg.currency)]
                                             else b.pending)
  {
    FoldsIff(currency, cfg.currency);
  }

  /** A confirmation reaches the server exactly when fewer consumes than the maximum were answered and the id is pending,
      which it then no longer is; it counts exactly when it is answered. */
  lemma ConfirmSays(cfg: Config, sv: Server, b: State, id: string)
    ensures var (after, r) := Confirm(cfg, sv, b, id);
            var sent := b.consumes < cfg.maxConsumes && id in b.pending;
            var a := sv.consume(|b.wire|);
            && (!sent ==> after == b && r.Refused?)
            && (sent ==> after == State(b.pending - {id}, b.known, b.consumes + (if a.Said? then 1 else 0),
                                        b.wire + [Sent(id), if a.Said? then Executed(id) else Failed(id)])
                         && (r.Ok? <==> a.Said?) && (r.Crash? <==> a.Broken?))
  {
  }

  // ------------------------------------------------------------------ the broker, updated in place

  class PaariBroker {
    const cfg: Config
    const server: Server
    var pending: map<string, Pending>
    var known: set<string>
    var consumes: nat
    var wire: seq<Event>

    function View(): State
      reads this
    {
      State(pending, known, consumes, wire)
    }

    constructor (cfg: Config, server: Server)
      ensures this.cfg == cfg && this.server == server && View() == Start()
    {
      this.cfg, this.server := cfg, server;
      pending, known, consumes, wire := map[], {}, 0, [];
    }

    method ToolProposePayment(merchant: string, amount: int, currency: string) returns (r: Result)
      modifies this
      ensures (View(), r) == Propose(cfg, server, old(View()), merchant, amount, currency)
    {
      if amount <= 0 { return Refused("BAD_AMOUNT"); }
      if amount > cfg.maxAmount { return Refused("AMOUNT_OVER_LIMIT"); }
      if Upper(currency) != Upper(cfg.currency) { return Refused("UNSUPPORTED_CURRENCY"); }
      var n := |wire|;
      var tx := server.name(n);
      known := known + {tx};
      wire := wire + [Proposed(tx, amount, cfg.currency)];
      match server.intent(n) {
        case Rejected => return Refused("SERVER_REJECTED");
        case Broken => return Crash;
        case Said(g) =>
          if g.decision != "allow" { return Refused("NOT_ALLOWED"); }
          if g.authorizationId == "" { return Refused("NO_AUTHORIZATION"); }
          pending := pending[g.authorizationId := Pending(tx, merchant, amount, cfg.currency)];
          wire := wire + [Issued(g.authorizationId, amount)];
          return Ok(g.authorizationId);
      }
    }

    method ToolConfirmPayment(id: string) returns (r: Result)
      modifies this
      ensures (View(), r) == Confirm(cfg, server, old(View()), id)
    {
      if consumes >= cfg.maxConsumes { return Refused("CONSUME_LIMIT"); }
      if id !in pending { return Refused("UNKNOWN_AUTHORIZATION"); }
      var n := |wire|;
      pending := pending - {id};
      match server.consume(n) {
        case Rejected => wire := wire + [Sent(id), Failed(id)]; return Refused("SERVER_REJECTED");
        case Broken => wire := wire + [Sent(id), Failed(id)]; return Crash;
        case Said(state) => wire := wire + [Sent(id), Executed(id)]; consumes := consumes + 1; return Ok(state);
      }
    }

    method ToolReadProof(tx: string) returns (r: Result)
      modifies this
      ensures (View(), r) == Executes(cfg, server, old(View()), ReadProof(tx))
    {
      if tx !in known { return Refused("UNKNOWN_TRANSACTION"); }
      var n := |wire|;
      wire := wire + [ProofAsked(tx)];
      match server.proof(n) {
        case Rejected => return Refused("SERVER_REJECTED");
        case Broken => return Crash;
        case Said(text) => return Ok(text);
      }
    }

    method Execute(t: Tool) returns (r: Result)
      modifies this
      ensures (View(), r) == Executes(cfg, server, old(View()), t)
    {
      match t {
        case Malformed(code) => return Refused(code);
        case GetDelegation => return Ok(cfg.currency);
        case GetPaymentAuthority =>
          var n := |wire|;
          wire := wire + [AuthorityAsked];
          match server.authority(n) {
            case Rejected => return Refused("SERVER_REJECTED");
            case Broken => return Crash;
            case Said(text) => return Ok(text);
          }
        case ProposePayment(merchant, amount, currency) => r := ToolProposePayment(merchant, amount, currency);
        case ConfirmPayment(id) => r := ToolConfirmPayment(id);
        case ReadProof(tx) => r := ToolReadProof(tx);
      }
    }
  }

  // ------------------------------------------------------------------ the loop

  datatype Entry = Entry(turn: nat, tool: Tool, result: Result)

  /** One reply: prose, nothing, or tool calls. */
  datatype Reply = Reply(text: Option<string>, calls: seq<Tool>)

  datatype Ending = FinalText | EmptyReply | TooManyCalls | TooManyTurns | Raised

  datatype Limits = Limits(maxTurns: nat, maxToolCalls: nat)

  datatype Run = Run(state: State, transcript: seq<Entry>, toolCalls: nat, turns: nat, executed: bool, ending: Ending)

  predicate Pays(e: Entry) {
    e.tool.ConfirmPayment? && e.result.Ok?
  }

  /** The calls of one reply, in order, until one raises. */
  function CallAll(cfg: Config, sv: Server, r: Run, turn: nat, calls: seq<Tool>): Run
    decreases |calls|
  {
    if calls == [] then r
    else
      var (b, result) := Executes(cfg, sv, r.state, calls[0]);
      if result.Crash? then r.(state := b, toolCalls := r.toolCalls + 1, ending := Raised)
      else
        var e := Entry(turn, calls[0], result);
        CallAll(cfg, sv, r.(state := b, transcript := r.transcript + [e], toolCalls := r.toolCalls + 1, executed := r.executed || Pays(e)),
                turn, calls[1..])
  }

  /** The turns from the `turn`-th on. */
  function Turns(cfg: Config, sv: Server, model: nat -> Reply, lim: Limits, r: Run, turn: nat): Run
    decreases lim.maxTurns + 1 - turn
  {
    if turn > lim.maxTurns then r.(ending := TooManyTurns)
    else
      var reply := model(turn);
      var at := r.(turns := turn);
      if reply.calls == [] then at.(ending := if reply.text.None? then EmptyReply else FinalText)
      else if at.toolCalls + |reply.calls| > lim.maxToolCalls then at.(ending := TooManyCalls)
      else
        var after := CallAll(cfg, sv, at.(ending := TooManyTurns), turn, reply.calls);
        if after.ending == Raised then after else Turns(cfg, sv, model, lim, after, turn + 1)
  }

  function RunOf(cfg: Config, sv: Server, model: nat -> Reply, lim: Limits, b: State): Run {
    Turns(cfg, sv, model, lim, Run(b, [], 0, 0, false, TooManyTurns), 1)
  }

  /** The inner loop of `run_goal`: the calls of one reply. */
  method CallEach(broker: PaariBroker, before: Run, turn: nat, calls: seq<Tool>) returns (run: Run)
    requires before.state == broker.View()
    modifies broker
    ensures run == CallAll(broker.cfg, broker.server, before, turn, calls) && run.state == broker.View()
  {
    run := before;
    for i := 0 to |calls|
      invariant run.state == broker.View()
      invariant CallAll(broker.cfg, broker.server, before, turn, calls) == CallAll(broker.cfg, broker.server, run, turn, calls[i..])
    {
      assert calls[i..][0] == calls[i] && calls[i..][1..] == calls[i + 1..];
      var result := broker.Execute(calls[i]);
      run := run.(state := broker.View(), toolCalls := run.toolCalls + 1);
      if result.Crash? { return run.(ending := Raised); }
      var e := Entry(turn, calls[i], result);
      run := run.(transcript := run.transcript + [e], executed := run.executed || Pays(e));
    }
  }

  /** `run_goal`. */
  method RunGoal(broker: PaariBroker, model: nat -> Reply, lim: Limits) returns (run: Run)
    modifies broker
    ensures run == RunOf(broker.cfg, broker.server, model, lim, old(broker.View())) && run.state == broker.View()
  {
    run := Run(broker.View(), [], 0, 0, false, TooManyTurns);
    var turn := 1;
    while turn <= lim.maxTurns
      invariant 1 <= turn && run.state == broker.View() && run.ending == TooManyTurns
      invariant RunOf(broker.cfg, broker.server, model, lim, old(broker.View()))
             == Turns(broker.cfg, broker.server, model, lim, run, turn)
    {
      run := run.(turns := turn);
      var reply := model(turn);
      if reply.calls == [] { return run.(ending := if reply.text.None? then EmptyReply else FinalText); }
      if run.toolCalls + |reply.calls| > lim.maxToolCalls { return run.(ending := TooManyCalls); }
      CallAllEnds(broker.cfg, broker.server, run, turn, reply.calls);
      run := CallEach(broker, run, turn, reply.calls);
      if run.ending == Raised { return; }
      turn := turn + 1;
    }
  }

  /** The calls of a reply only ever end a run by raising. */
  lemma {:induction false} CallAllEnds(cfg: Config, sv: Server, r: Run, turn: nat, calls: seq<Tool>)
    ensures CallAll(cfg, sv, r, turn, calls).ending == r.ending || CallAll(cfg, sv, r, turn, calls).ending == Raised
    decreases |calls|
  {
    if calls != [] {
      var (b, result) := Executes(cfg, sv, r.state, calls[0]);
      var e := Entry(turn, calls[0], result);
      if !result.Crash? {
        CallAllEnds(cfg, sv, r.(state := b, transcript := r.transcript + [e], toolCalls := r.toolCalls + 1, executed := r.executed || Pays(e)),
                    turn, calls[1..]);
      }
    }
  }

  // ------------------------------------------------------------------ what the wire shows

  function Issues(wire: seq<Event>, id: string): nat {
    if wire == [] then 0 else Issues(wire[..|wire| - 1], id) + if wire[|wire| - 1].Issued? && wire[|wire| - 1].authorizationId == id then 1 else 0
  }

  function Sends(wire: seq<Event>, id: string): nat {
    if wire == [] then 0 else Sends(wire[..|wire| - 1], id) + if wire[|wire| - 1] == Sent(id) then 1 else 0
  }

  function Executions(wire: seq<Event>): nat {
    if wire == [] then 0 else Executions(wire[..|wire| - 1]) + if wire[|wire| - 1].Executed? then 1 else 0
  }

  lemma Appended(wire: seq<Event>, e: Event, id: string)
    ensures Issues(wire + [e], id) == Issues(wire, id) + if e.Issued? && e.authorizationId == id then 1 else 0
    ensures Sends(wire + [e], id) == Sends(wire, id) + if e == Sent(id) then 1 else 0
    ensures Executions(wire + [e]) == Executions(wire) + if e.Executed? then 1 else 0
  {
    assert (wire + [e])[..|wire|] == wire;
  }

  /** An id still pending has been issued more often than sent. */
  ghost predicate PendingIsUnspent(b: State) {
    forall id {:trigger Sends(b.wire, id)} :: Sends(b.wire, id) + (if id in b.pending then 1 else 0) <= Issues(b.wire, id)
  }

  /** Whenever an id went out, it had come in more often than it had gone out before. */
  ghost predicate SentAt(wire: seq<Event>, k: nat)
    requires k < |wire|
  {
    wire[k].Sent? ==> Sends(wire[..k], wire[k].authorizationId) < Issues(wire[..k], wire[k].authorizationId)
  }

  ghost predicate SendsFollowIssues(wire: seq<Event>) {
    forall k {:trigger SentAt(wire, k)} :: 0 <= k < |wire| ==> SentAt(wire, k)
  }

  predicate WithinCap(cfg: Config, e: Event) {
    (e.Issued? || e.Proposed? ==> 0 < e.amount <= cfg.maxAmount) && (e.Proposed? ==> e.currency == cfg.currency)
  }

  ghost predicate Capped(cfg: Config, wire: seq<Event>) {
    forall e :: e in wire ==> WithinCap(cfg, e)
  }

  ghost predicate ProposedTx(wire: seq<Event>, tx: string) {
    exists e :: e in wire && e.Proposed? && e.transactionId == tx
  }

  ghost predicate ProofsAreOwn(b: State) {
    && (forall tx :: tx in b.known ==> ProposedTx(b.wire, tx))
    && (forall e :: e in b.wire && e.ProofAsked? ==> ProposedTx(b.wire, e.transactionId))
  }

  ghost predicate Metered(cfg: Config, b: State) {
    b.consumes == Executions(b.wire) && b.consumes <= cfg.maxConsumes
  }

  ghost predicate Honest(cfg: Config, b: State) {
    PendingIsUnspent(b) && SendsFollowIssues(b.wire) && Capped(cfg, b.wire) && ProofsAreOwn(b) && Metered(cfg, b)
  }

  lemma FollowsAppended(wire: seq<Event>, e: Event)
    requires SendsFollowIssues(wire)
    requires e.Sent? ==> Sends(wire, e.authorizationId) < Issues(wire, e.authorizationId)
    ensures SendsFollowIssues(wire + [e])
  {
    var more := wire + [e];
    forall k | 0 <= k < |more| ensures SentAt(more, k) {
      if k < |wire| {
        assert more[..k] == wire[..k] && SentAt(wire, k);
      } else {
        assert more[..k] == wire;
      }
    }
  }

  /** An event that neither issues, sends nor executes leaves the counts alone. */
  lemma QuietEvent(cfg: Config, b: State, known: set<string>, e: Event)
    requires Honest(cfg, b) && !e.Issued? && !e.Sent? && !e.Executed? && WithinCap(cfg, e)
    requires known == b.known + if e.Proposed? then {e.transactionId} else {}
    requires e.ProofAsked? ==> e.transactionId in b.known
    ensures Honest(cfg, b.(known := known, wire := b.wire + [e]))
  {
    var after := b.(known := known, wire := b.wire + [e]);
    forall id ensures Sends(after.wire, id) + (if id in after.pending then 1 else 0) <= Issues(after.wire, id) {
      Appended(b.wire, e, id);
      assert Sends(b.wire, id) + (if id in b.pending then 1 else 0) <= Issues(b.wire, id);
    }
    Appended(b.wire, e, "");
    FollowsAppended(b.wire, e);
    KnownGrows(b, after, e);
  }

  lemma KnownGrows(b: State, after: State, e: Event)
    requires ProofsAreOwn(b) && after.wire == b.wire + [e]
    requires after.known == b.known + if e.Proposed? then {e.transactionId} else {}
    requires e.ProofAsked? ==> e.transactionId in b.known
    ensures ProofsAreOwn(after)
  {
    forall tx | ProposedTx(b.wire, tx) || (e.Proposed? && e.transactionId == tx) ensures ProposedTx(after.wire, tx) {
      if ProposedTx(b.wire, tx) {
        var x :| x in b.wire && x.Proposed? && x.transactionId == tx;
        assert x in after.wire;
      } else {
        assert e in after.wire;
      }
    }
  }

  lemma IssueEvent(cfg: Config, b: State, id: string, p: Pending)
    requires Honest(cfg, b) && 0 < p.amount <= cfg.maxAmount
    ensures Honest(cfg, b.(pending := b.pending[id := p], wire := b.wire + [Issued(id, p.amount)]))
  {
    var e := Issued(id, p.amount);
    var after := b.(pending := b.pending[id := p], wire := b.wire + [e]);
    forall x ensures Sends(after.wire, x) + (if x in after.pending then 1 else 0) <= Issues(after.wire, x) {
      Appended(b.wire, e, x);
      assert Sends(b.wire, x) + (if x in b.pending then 1 else 0) <= Issues(b.wire, x);
    }
    Appended(b.wire, e, "");
    FollowsAppended(b.wire, e);
    KnownGrows(b, after, e);
  }

  lemma SendEvent(cfg: Config, b: State, id: string)
    requires Honest(cfg, b) && id in b.pending
    ensures Honest(cfg, b.(pending := b.pending - {id}, wire := b.wire + [Sent(id)]))
  {
    var e := Sent(id);
    var after := b.(pending := b.pending - {id}, wire := b.wire + [e]);
    forall x ensures Sends(after.wire, x) + (if x in after.pending then 1 else 0) <= Issues(after.wire, x) {
      Appended(b.wire, e, x);
      assert Sends(b.wire, x) + (if x in b.pending then 1 else 0) <= Issues(b.wire, x);
    }
    Appended(b.wire, e, "");
    FollowsAppended(b.wire, e);
    KnownGrows(b, after, e);
  }

  lemma ExecutedEvent(cfg: Config, b: State, id: string)
    requires Honest(cfg, b) && b.consumes < cfg.maxConsumes
    ensures Honest(cfg, b.(consumes := b.consumes + 1, wire := b.wire + [Executed(id)]))
  {
    var e := Executed(id);
    var after := b.(consumes := b.consumes + 1, wire := b.wire + [e]);
    forall x ensures Sends(after.wire, x) + (if x in after.pending then 1 else 0) <= Issues(after.wire, x) {
      Appended(b.wire, e, x);
      assert Sends(b.wire, x) + (if x in b.pending then 1 else 0) <= Issues(b.wire, x);
    }
    Appended(b.wire, e, "");
    FollowsAppended(b.wire, e);
    KnownGrows(b, after, e);
  }

  lemma ProposeKeepsHonest(cfg: Config, sv: Server, b: State, merchant: string, amount: int, currency: string)
    requires Honest(cfg, b)
    ensures Honest(cfg, Propose(cfg, sv, b, merchant, amount, currency).0)
  {
    if 0 < amount <= cfg.maxAmount && Upper(currency) == Upper(cfg.currency) {
      var tx := sv.name(|b.wire|);
      QuietEvent(cfg, b, b.known + {tx}, Proposed(tx, amount, cfg.currency));
      var asked := b.(known := b.known + {tx}, wire := b.wire + [Proposed(tx, amount, cfg.currency)]);
      if sv.intent(|b.wire|).Said? {
        IssueEvent(cfg, asked, sv.intent(|b.wire|).value.authorizationId, Pending(tx, merchant, amount, cfg.currency));
      }
    }
  }

  lemma SentAndExecuted(cfg: Config, b: State, id: string)
    requires Honest(cfg, b) && b.consumes < cfg.maxConsumes && id in b.pending
    ensures Honest(cfg, State(b.pending - {id}, b.known, b.consumes + 1, b.wire + [Sent(id), Executed(id)]))
  {
    SendEvent(cfg, b, id);
    ExecutedEvent(cfg, b.(pending := b.pending - {id}, wire := b.wire + [Sent(id)]), id);
    assert b.wire + [Sent(id), Executed(id)] == b.wire + [Sent(id)] + [Executed(id)];
  }

  lemma SentAndFailed(cfg: Config, b: State, id: string)
    requires Honest(cfg, b) && id in b.pending
    ensures Honest(cfg, State(b.pending - {id}, b.known, b.consumes, b.wire + [Sent(id), Failed(id)]))
  {
    SendEvent(cfg, b, id);
    QuietEvent(cfg, b.(pending := b.pending - {id}, wire := b.wire + [Sent(id)]), b.known, Failed(id));
    assert b.wire + [Sent(id), Failed(id)] == b.wire + [Sent(id)] + [Failed(id)];
  }

  lemma ConfirmKeepsHonest(cfg: Config, sv: Server, b: State, id: string)
    requires Honest(cfg, b)
    ensures Honest(cfg, Confirm(cfg, sv, b, id).0)
  {
    if b.consumes < cfg.maxConsumes && id in b.pending {
      if sv.consume(|b.wire|).Said? { SentAndExecuted(cfg, b, id); } else { SentAndFailed(cfg, b, id); }
    }
  }

  /** One tool call keeps the wire honest; the number of executed payments grows exactly when a confirmation is
      answered. */
  lemma ExecuteKeepsHonest(cfg: Config, sv: Server, b: State, t: Tool)
    requires Honest(cfg, b)
    ensures var (after, r) := Executes(cfg, sv, b, t);
            Honest(cfg, after) && after.consumes == b.consumes + if Pays(Entry(0, t, r)) then 1 else 0
  {
    match t {
      case ProposePayment(merchant, amount, currency) => ProposeKeepsHonest(cfg, sv, b, merchant, amount, currency);
      case ConfirmPayment(id) => ConfirmKeepsHonest(cfg, sv, b, id);
      case GetPaymentAuthority => QuietEvent(cfg, b, b.known, AuthorityAsked);
      case ReadProof(tx) => if tx in b.known { QuietEvent(cfg, b, b.known, ProofAsked(tx)); }
      case _ =>
    }
  }

  // ------------------------------------------------------------------ over whole runs

  function Payments(transcript: seq<Entry>): nat {
    if transcript == [] then 0 else Payments(transcript[..|transcript| - 1]) + if Pays(transcript[|transcript| - 1]) then 1 else 0
  }

  /** What holds between turns and at the end. The transcript lists every call that returned. */
  ghost predicate Sound(cfg: Config, lim: Limits, r: Run) {
    && Honest(cfg, r.state)
    && r.toolCalls <= lim.maxToolCalls && r.turns <= lim.maxTurns
    && |r.transcript| == r.toolCalls - (if r.ending == Raised then 1 else 0)
    && Payments(r.transcript) == r.state.consumes && (r.executed <==> r.state.consumes > 0)
  }

  lemma {:induction false} CallsKeepSound(cfg: Config, sv: Server, lim: Limits, r: Run, turn: nat, calls: seq<Tool>)
    requires Sound(cfg, lim, r) && r.ending != Raised && r.toolCalls + |calls| <= lim.maxToolCalls
    ensures Sound(cfg, lim, CallAll(cfg, sv, r, turn, calls)) && CallAll(cfg, sv, r, turn, calls).turns == r.turns
    decreases |calls|
  {
    if calls != [] {
      ExecuteKeepsHonest(cfg, sv, r.state, calls[0]);
      var (b, result) := Executes(cfg, sv, r.state, calls[0]);
      if !result.Crash? {
        var e := Entry(turn, calls[0], result);
        assert (r.transcript + [e])[..|r.transcript|] == r.transcript;
        CallsKeepSound(cfg, sv, lim,
                       r.(state := b, transcript := r.transcript + [e], toolCalls := r.toolCalls + 1, executed := r.executed || Pays(e)),
                       turn, calls[1..]);
      }
    }
  }

  lemma {:induction false} TurnsKeepSound(cfg: Config, sv: Server, model: nat -> Reply, lim: Limits, r: Run, turn: nat)
    requires Sound(cfg, lim, r) && r.ending != Raised
    ensures Sound(cfg, lim, Turns(cfg, sv, model, lim, r, turn))
    decreases lim.maxTurns + 1 - turn
  {
    if turn <= lim.maxTurns {
      var reply := model(turn);
      var at := r.(turns := turn, ending := TooManyTurns);
      if reply.calls != [] && at.toolCalls + |reply.calls| <= lim.maxToolCalls {
        CallsKeepSound(cfg, sv, lim, at, turn, reply.calls);
        var after := CallAll(cfg, sv, at, turn, reply.calls);
        if after.ending != Raised { TurnsKeepSound(cfg, sv, model, lim, after, turn + 1); }
      }
    }
  }

  /** Whatever the model asks and the server answers, for however long, a run ends within its turns and tool
      calls, its transcript lists each call once, at most `maxConsumes` payments execute and each is a confirmed
      entry of the transcript, every id sent had been issued for an amount within the cap and not yet spent, and
      proofs are read of its own transactions only. */
  lemma RunsAreBounded(cfg: Config, sv: Server, model: nat -> Reply, lim: Limits)
    ensures var r := RunOf(cfg, sv, model, lim, Start());
            && r.turns <= lim.maxTurns && r.toolCalls <= lim.maxToolCalls
            && (r.ending != Raised ==> |r.transcript| == r.toolCalls)
            && Executions(r.state.wire) == Payments(r.transcript) <= cfg.maxConsumes
            && (r.executed <==> Payments(r.transcript) > 0)
            && SendsFollowIssues(r.state.wire) && Capped(cfg, r.state.wire) && ProofsAreOwn(r.state)
  {
    TurnsKeepSound(cfg, sv, model, lim, Run(Start(), [], 0, 0, false, TooManyTurns), 1);
  }

  // ------------------------------------------------------------------ what the meter does not count

  function Failures(wire: seq<Event>): nat {
    if wire == [] then 0 else Failures(wire[..|wire| - 1]) + if wire[|wire| - 1].Failed? then 1 else 0
  }

  function AllSends(wire: seq<Event>): nat {
    if wire == [] then 0 else AllSends(wire[..|wire| - 1]) + if wire[|wire| - 1].Sent? then 1 else 0
  }

  lemma SendsAreExecutionsAndFailures(wire: seq<Event>, id: string)
    ensures AllSends(wire + [Sent(id), Executed(id)]) == AllSends(wire) + 1 && Failures(wire + [Sent(id), Executed(id)]) == Failures(wire)
    ensures AllSends(wire + [Sent(id), Failed(id)]) == AllSends(wire) + 1 && Failures(wire + [Sent(id), Failed(id)]) == Failures(wire) + 1
    ensures Executions(wire + [Sent(id), Executed(id)]) == Executions(wire) + 1 && Executions(wire + [Sent(id), Failed(id)]) == Executions(wire)
  {
    var sent := wire + [Sent(id)];
    assert sent[..|wire|] == wire;
    assert wire + [Sent(id), Executed(id)] == sent + [Executed(id)] && (sent + [Executed(id)])[..|sent|] == sent;
    assert wire + [Sent(id), Failed(id)] == sent + [Failed(id)] && (sent + [Failed(id)])[..|sent|] == sent;
  }

  lemma OtherEventsSendNothing(wire: seq<Event>, e: Event)
    requires !e.Sent? && !e.Executed? && !e.Failed?
    ensures AllSends(wire + [e]) == AllSends(wire) && Failures(wire + [e]) == Failures(wire) && Executions(wire + [e]) == Executions(wire)
  {
    assert (wire + [e])[..|wire|] == wire;
  }

  predicate Balanced(wire: seq<Event>) {
    AllSends(wire) == Executions(wire) + Failures(wire)
  }

  lemma ProposeKeepsBalance(cfg: Config, sv: Server, b: State, merchant: string, amount: int, currency: string)
    requires Balanced(b.wire)
    ensures Balanced(Propose(cfg, sv, b, merchant, amount, currency).0.wire)
  {
    var e := Proposed(sv.name(|b.wire|), amount, cfg.currency);
    OtherEventsSendNothing(b.wire, e);
    if sv.intent(|b.wire|).Said? { OtherEventsSendNothing(b.wire + [e], Issued(sv.intent(|b.wire|).value.authorizationId, amount)); }
  }

  lemma ConfirmKeepsBalance(cfg: Config, sv: Server, b: State, id: string)
    requires Balanced(b.wire)
    ensures Balanced(Confirm(cfg, sv, b, id).0.wire)
  {
    SendsAreExecutionsAndFailures(b.wire, id);
  }

  lemma ExecuteKeepsBalance(cfg: Config, sv: Server, b: State, t: Tool)
    requires Balanced(b.wire)
    ensures Balanced(Executes(cfg, sv, b, t).0.wire)
  {
    match t {
      case ProposePayment(merchant, amount, currency) => ProposeKeepsBalance(cfg, sv, b, merchant, amount, currency);
      case ConfirmPayment(id) => ConfirmKeepsBalance(cfg, sv, b, id);
      case GetPaymentAuthority => OtherEventsSendNothing(b.wire, AuthorityAsked);
      case ReadProof(tx) => OtherEventsSendNothing(b.wire, ProofAsked(tx));
      case _ =>
    }
  }

  lemma {:induction false} CallsKeepBalance(cfg: Config, sv: Server, r: Run, turn: nat, calls: seq<Tool>)
    requires Balanced(r.state.wire)
    ensures Balanced(CallAll(cfg, sv, r, turn, calls).state.wire)
    decreases |calls|
  {
    if calls != [] {
      ExecuteKeepsBalance(cfg, sv, r.state, calls[0]);
      var (b, result) := Executes(cfg, sv, r.state, calls[0]);
      var e := Entry(turn, calls[0], result);
      CallsKeepBalance(cfg, sv, r.(state := b, transcript := r.transcript + [e], toolCalls := r.toolCalls + 1, executed := r.executed || Pays(e)),
                       turn, calls[1..]);
    }
  }

  lemma {:induction false} TurnsKeepBalance(cfg: Config, sv: Server, model: nat -> Reply, lim: Limits, r: Run, turn: nat)
    requires Balanced(r.state.wire)
    ensures Balanced(Turns(cfg, sv, model, lim, r, turn).state.wire)
    decreases lim.maxTurns + 1 - turn
  {
    if turn <= lim.maxTurns {
      var at := r.(turns := turn, ending := TooManyTurns);
      CallsKeepBalance(cfg, sv, at, turn, model(turn).calls);
      TurnsKeepBalance(cfg, sv, model, lim, CallAll(cfg, sv, at, turn, model(turn).calls), turn + 1);
    }
  }

  /** A proposal and its confirmation, `n` times over. */
  function Stubborn(cfg: Config, n: nat): seq<Tool> {
    if n == 0 then [] else [ProposePayment("shop", 1, cfg.currency), ConfirmPayment("a")] + Stubborn(cfg, n - 1)
  }

  /** Allows everything, and answers every consume with an error. */
  function Refusing(): Server {
    Server(n => Said(Governance("allow", "a")), n => Rejected, n => Rejected, n => Rejected, n => "t")
  }

  /** One proposal allowed, one confirmation refused: the authorization went out and nothing was metered. */
  function Round(cfg: Config, r: Run): Run {
    var wire := r.state.wire + [Proposed("t", 1, cfg.currency)] + [Issued("a", 1)] + [Sent("a"), Failed("a")];
    var pending := r.state.pending["a" := Pending("t", "shop", 1, cfg.currency)] - {"a"};
    r.(state := State(pending, r.state.known + {"t"}, r.state.consumes, wire), toolCalls := r.toolCalls + 2,
       transcript := r.transcript + [Entry(1, ProposePayment("shop", 1, cfg.currency), Ok("a"))]
                     + [Entry(1, ConfirmPayment("a"), Refused("SERVER_REJECTED"))])
  }

  lemma RoundIsTwoCalls(cfg: Config, r: Run, more: seq<Tool>)
    requires cfg.maxAmount >= 1 && cfg.maxConsumes >= 1 && r.state.consumes == 0
    ensures CallAll(cfg, Refusing(), r, 1, [ProposePayment("shop", 1, cfg.currency), ConfirmPayment("a")] + more)
         == CallAll(cfg, Refusing(), Round(cfg, r), 1, more)
  {
    var calls := [ProposePayment("shop", 1, cfg.currency), ConfirmPayment("a")] + more;
    var (b, _) := Executes(cfg, Refusing(), r.state, calls[0]);
    var first := r.(state := b, transcript := r.transcript + [Entry(1, calls[0], Ok("a"))], toolCalls := r.toolCalls + 1);
    assert calls[1..][0] == calls[1] && calls[1..][1..] == more;
    assert CallAll(cfg, Refusing(), r, 1, calls) == CallAll(cfg, Refusing(), first, 1, calls[1..]);
  }

  lemma RoundSends(cfg: Config, r: Run)
    ensures AllSends(Round(cfg, r).state.wire) == AllSends(r.state.wire) + 1
  {
    var asked := r.state.wire + [Proposed("t", 1, cfg.currency)];
    OtherEventsSendNothing(r.state.wire, Proposed("t", 1, cfg.currency));
    OtherEventsSendNothing(asked, Issued("a", 1));
    SendsAreExecutionsAndFailures(asked + [Issued("a", 1)], "a");
  }

  lemma {:induction false} StubbornSends(cfg: Config, r: Run, n: nat)
    requires cfg.maxAmount >= 1 && cfg.maxConsumes >= 1 && r.state.consumes == 0 && r.ending != Raised
    ensures var after := CallAll(cfg, Refusing(), r, 1, Stubborn(cfg, n));
            after.ending != Raised && after.state.consumes == 0 && AllSends(after.state.wire) == AllSends(r.state.wire) + n
    decreases n
  {
    if n > 0 {
      RoundIsTwoCalls(cfg, r, Stubborn(cfg, n - 1));
      RoundSends(cfg, r);
      StubbornSends(cfg, Round(cfg, r), n - 1);
    }
  }

  /** The meter counts answered consumes only. In every run what was sent is what executed plus what failed, so
      sends stay within `maxConsumes` plus the failures; and with failures there is no other bound: however small
      the maximum, some run sends any number of authorizations and meters none. */
  lemma FailedSendsAreNotMetered(cfg: Config, n: nat)
    requires cfg.maxAmount >= 1 && cfg.maxConsumes >= 1
    ensures forall sv: Server, model: nat -> Reply, lim: Limits ::
              var wire := RunOf(cfg, sv, model, lim, Start()).state.wire;
              AllSends(wire) == Executions(wire) + Failures(wire) <= cfg.maxConsumes + Failures(wire)
    ensures exists model: nat -> Reply, lim: Limits ::
              var r := RunOf(cfg, Refusing(), model, lim, Start());
              AllSends(r.state.wire) == n && r.state.consumes == 0
  {
    forall sv: Server, model: nat -> Reply, lim: Limits
      ensures var wire := RunOf(cfg, sv, model, lim, Start()).state.wire;
              AllSends(wire) == Executions(wire) + Failures(wire) <= cfg.maxConsumes + Failures(wire)
    {
      TurnsKeepBalance(cfg, sv, model, lim, Run(Start(), [], 0, 0, false, TooManyTurns), 1);
      RunsAreBounded(cfg, sv, model, lim);
    }
    var calls := Stubborn(cfg, n);
    var model := (t: nat) => Reply(None, if t == 1 then calls else []);
    var lim := Limits(1, |calls|);
    StubbornRun(cfg, n, model, lim);
  }

  lemma StubbornRun(cfg: Config, n: nat, model: nat -> Reply, lim: Limits)
    requires cfg.maxAmount >= 1 && cfg.maxConsumes >= 1
    requires model(1).calls == Stubborn(cfg, n) && lim == Limits(1, |Stubborn(cfg, n)|)
    ensures var r := RunOf(cfg, Refusing(), model, lim, Start());
            AllSends(r.state.wire) == n && r.state.consumes == 0
  {
    var at := Run(Start(), [], 0, 1, false, TooManyTurns);
    StubbornSends(cfg, at, n);
    var after := CallAll(cfg, Refusing(), at, 1, model(1).calls);
    if n > 0 {
      assert RunOf(cfg, Refusing(), model, lim, Start()) == Turns(cfg, Refusing(), model, lim, after, 2);
      assert Turns(cfg, Refusing(), model, lim, after, 2).state == after.state;
    }
  }

  // ------------------------------------------------------------------ exactly when the meter holds

  /** No consume that a run can make is answered with a rejection: the first one follows a proposal and its answer. */
  ghost predicate NeverRejects(consume: nat -> Answer<string>) {
    forall n :: n >= 2 ==> !consume(n).Rejected?
  }

  ghost predicate Counted(cfg: Config, b: State) {
    (b.pending != map[] ==> |b.wire| >= 2) && AllSends(b.wire) == b.consumes <= cfg.maxConsumes
  }

  lemma ProposeKeepsCounted(cfg: Config, sv: Server, b: State, merchant: string, amount: int, currency: string)
    requires Counted(cfg, b)
    ensures Counted(cfg, Propose(cfg, sv, b, merchant, amount, currency).0)
  {
    var e := Proposed(sv.name(|b.wire|), amount, cfg.currency);
    QuietKeepsCounted(cfg, b, e);
    if sv.intent(|b.wire|).Said? {
      QuietKeepsCounted(cfg, b.(wire := b.wire + [e]), Issued(sv.intent(|b.wire|).value.authorizationId, amount));
    }
  }

  /** A call that breaks raises and ends the run, one send past what was counted and still within the maximum. */
  lemma ConfirmKeepsCounted(cfg: Config, sv: Server, b: State, id: string)
    requires Counted(cfg, b) && NeverRejects(sv.consume)
    ensures var (after, r) := Confirm(cfg, sv, b, id); AllSends(after.wire) <= cfg.maxConsumes && (r.Crash? || Counted(cfg, after))
  {
    SendsAreExecutionsAndFailures(b.wire, id);
  }

  lemma QuietKeepsCounted(cfg: Config, b: State, e: Event)
    requires Counted(cfg, b) && !e.Sent? && !e.Executed? && !e.Failed?
    ensures Counted(cfg, b.(wire := b.wire + [e]))
  {
    OtherEventsSendNothing(b.wire, e);
  }

  lemma AskKeepsCounted(cfg: Config, b: State, e: Event, a: Answer<string>)
    requires Counted(cfg, b) && !e.Sent? && !e.Executed? && !e.Failed?
    ensures var after := Relayed(b.(wire := b.wire + [e]), a).0; AllSends(after.wire) <= cfg.maxConsumes && Counted(cfg, after)
  {
    QuietKeepsCounted(cfg, b, e);
  }

  lemma ExecuteKeepsCounted(cfg: Config, sv: Server, b: State, t: Tool)
    requires Counted(cfg, b) && NeverRejects(sv.consume)
    ensures var (after, r) := Executes(cfg, sv, b, t); AllSends(after.wire) <= cfg.maxConsumes && (r.Crash? || Counted(cfg, after))
  {
    match t {
      case ProposePayment(merchant, amount, currency) => ProposeKeepsCounted(cfg, sv, b, merchant, amount, currency);
      case ConfirmPayment(id) => ConfirmKeepsCounted(cfg, sv, b, id);
      case GetPaymentAuthority => AskKeepsCounted(cfg, b, AuthorityAsked, sv.authority(|b.wire|));
      case ReadProof(tx) => AskKeepsCounted(cfg, b, ProofAsked(tx), sv.proof(|b.wire|));
      case _ =>
    }
  }

  ghost predicate WithinMeter(cfg: Config, r: Run) {
    AllSends(r.state.wire) <= cfg.maxConsumes && (r.ending == Raised || Counted(cfg, r.state))
  }

  lemma {:induction false} CallsStayWithinMeter(cfg: Config, sv: Server, r: Run, turn: nat, calls: seq<Tool>)
    requires Counted(cfg, r.state) && NeverRejects(sv.consume)
    ensures WithinMeter(cfg, CallAll(cfg, sv, r, turn, calls))
    decreases |calls|
  {
    if calls != [] {
      ExecuteKeepsCounted(cfg, sv, r.state, calls[0]);
      var (b, result) := Executes(cfg, sv, r.state, calls[0]);
      if !result.Crash? {
        var e := Entry(turn, calls[0], result);
        CallsStayWithinMeter(cfg, sv, r.(state := b, transcript := r.transcript + [e], toolCalls := r.toolCalls + 1, executed := r.executed || Pays(e)),
                             turn, calls[1..]);
      }
    }
  }

  lemma {:induction false} TurnsStayWithinMeter(cfg: Config, sv: Server, model: nat -> Reply, lim: Limits, r: Run, turn: nat)
    requires Counted(cfg, r.state) && NeverRejects(sv.consume)
    ensures AllSends(Turns(cfg, sv, model, lim, r, turn).state.wire) <= cfg.maxConsumes
    decreases lim.maxTurns + 1 - turn
  {
    if turn <= lim.maxTurns {
      var at := r.(turns := turn, ending := TooManyTurns);
      CallsStayWithinMeter(cfg, sv, at, turn, model(turn).calls);
      var after := CallAll(cfg, sv, at, turn, model(turn).calls);
      if after.ending != Raised { TurnsStayWithinMeter(cfg, sv, model, lim, after, turn + 1); }
    }
  }

  /** Allows every proposal under one id, and answers consumes as told. */
  function Allowing(consume: nat -> Answer<string>): Server {
    Server(n => Said(Governance("allow", "a")), consume, n => Rejected, n => Rejected, n => "t")
  }

  function Small(): Config {
    Config(1, "INR", 1)
  }

  function Buy(): Tool {
    ProposePayment("shop", 1, "INR")
  }

  function Pads(k: nat): seq<Tool> {
    if k == 0 then [] else [GetPaymentAuthority] + Pads(k - 1)
  }

  function Called(sv: Server, r: Run, t: Tool): Run {
    var (b, result) := Executes(Small(), sv, r.state, t);
    var e := Entry(1, t, result);
    r.(state := b, transcript := r.transcript + [e], toolCalls := r.toolCalls + 1, executed := r.executed || Pays(e))
  }

  lemma CallOne(sv: Server, r: Run, t: Tool, more: seq<Tool>)
    requires !Executes(Small(), sv, r.state, t).1.Crash?
    ensures CallAll(Small(), sv, r, 1, [t] + more) == CallAll(Small(), sv, Called(sv, r, t), 1, more)
  {
    assert ([t] + more)[1..] == more;
  }

  /** Asking for the payment authority moves the wire on and nothing else. */
  lemma {:induction false} PadsMoveTheWire(consume: nat -> Answer<string>, r: Run, k: nat, more: seq<Tool>) returns (after: Run)
    ensures CallAll(Small(), Allowing(consume), r, 1, Pads(k) + more) == CallAll(Small(), Allowing(consume), after, 1, more)
    ensures after.state.pending == r.state.pending && after.state.consumes == r.state.consumes
    ensures |after.state.wire| == |r.state.wire| + k && AllSends(after.state.wire) == AllSends(r.state.wire)
    decreases k
  {
    var sv := Allowing(consume);
    if k == 0 {
      after := r;
      assert Pads(0) + more == more;
    } else {
      assert Pads(k) + more == [GetPaymentAuthority] + (Pads(k - 1) + more);
      CallOne(sv, r, GetPaymentAuthority, Pads(k - 1) + more);
      OtherEventsSendNothing(r.state.wire, AuthorityAsked);
      after := PadsMoveTheWire(consume, Called(sv, r, GetPaymentAuthority), k - 1, more);
    }
  }

  lemma BuyingWaits(consume: nat -> Answer<string>, b: State)
    ensures var (after, r) := Executes(Small(), Allowing(consume), b, Buy());
            && r == Ok("a") && "a" in after.pending && after.consumes == b.consumes
            && |after.wire| == |b.wire| + 2 && AllSends(after.wire) == AllSends(b.wire)
  {
    OtherEventsSendNothing(b.wire, Proposed("t", 1, "INR"));
    OtherEventsSendNothing(b.wire + [Proposed("t", 1, "INR")], Issued("a", 1));
  }

  lemma ConfirmSends(consume: nat -> Answer<string>, b: State)
    requires "a" in b.pending && b.consumes == 0
    ensures var (after, r) := Executes(Small(), Allowing(consume), b, ConfirmPayment("a"));
            && AllSends(after.wire) == AllSends(b.wire) + 1
            && (consume(|b.wire|).Rejected? ==> !r.Crash? && after.consumes == 0)
  {
    SendsAreExecutionsAndFailures(b.wire, "a");
  }

  /** Buys, waits until a consume would be the `n`-th message, has it rejected, buys again and confirms again. */
  function TwiceSent(n: nat): seq<Tool>
    requires n >= 2
  {
    [Buy()] + (Pads(n - 2) + ([ConfirmPayment("a")] + ([Buy()] + [ConfirmPayment("a")])))
  }

  lemma SecondTry(consume: nat -> Answer<string>, r: Run)
    requires "a" in r.state.pending && r.state.consumes == 0 && consume(|r.state.wire|).Rejected?
    ensures AllSends(CallAll(Small(), Allowing(consume), r, 1, [ConfirmPayment("a")] + ([Buy()] + [ConfirmPayment("a")])).state.wire)
            == AllSends(r.state.wire) + 2
  {
    var sv := Allowing(consume);
    ConfirmSends(consume, r.state);
    CallOne(sv, r, ConfirmPayment("a"), [Buy()] + [ConfirmPayment("a")]);
    var failed := Called(sv, r, ConfirmPayment("a"));
    BuyingWaits(consume, failed.state);
    CallOne(sv, failed, Buy(), [ConfirmPayment("a")]);
    var again := Called(sv, failed, Buy());
    ConfirmSends(consume, again.state);
    assert [ConfirmPayment("a")][1..] == [];
  }

  lemma RejectionSendsTwice(consume: nat -> Answer<string>, n: nat)
    requires n >= 2 && consume(n).Rejected?
    ensures AllSends(CallAll(Small(), Allowing(consume), Run(Start(), [], 0, 1, false, TooManyTurns), 1, TwiceSent(n)).state.wire) == 2
  {
    var sv, r := Allowing(consume), Run(Start(), [], 0, 1, false, TooManyTurns);
    var rest := [ConfirmPayment("a")] + ([Buy()] + [ConfirmPayment("a")]);
    BuyingWaits(consume, r.state);
    CallOne(sv, r, Buy(), Pads(n - 2) + rest);
    var padded := PadsMoveTheWire(consume, Called(sv, r, Buy()), n - 2, rest);
    SecondTry(consume, padded);
  }

  lemma OneTurn(cfg: Config, sv: Server, calls: seq<Tool>)
    requires calls != []
    ensures RunOf(cfg, sv, (t: nat) => Reply(None, if t == 1 then calls else []), Limits(1, |calls|), Start()).state
         == CallAll(cfg, sv, Run(Start(), [], 0, 1, false, TooManyTurns), 1, calls).state
  {
    var model := (t: nat) => Reply(None, if t == 1 then calls else []);
    var after := CallAll(cfg, sv, Run(Start(), [], 0, 1, false, TooManyTurns), 1, calls);
    if after.ending != Raised { assert Turns(cfg, sv, model, Limits(1, |calls|), after, 2).state == after.state; }
  }

  /** A server keeps every run, of every model and under every configuration, within its maximum of consumes sent, if
      and only if it never answers one with a rejection; a consume that breaks does no harm, since it ends the run. */
  lemma MeterHoldsIff(consume: nat -> Answer<string>)
    ensures (forall cfg: Config, sv: Server, model: nat -> Reply, lim: Limits {:trigger RunOf(cfg, sv, model, lim, Start())} ::
               sv.consume == consume ==> AllSends(RunOf(cfg, sv, model, lim, Start()).state.wire) <= cfg.maxConsumes)
            <==> NeverRejects(consume)
  {
    if NeverRejects(consume) {
      forall cfg: Config, sv: Server, model: nat -> Reply, lim: Limits | sv.consume == consume
        ensures AllSends(RunOf(cfg, sv, model, lim, Start()).state.wire) <= cfg.maxConsumes
      {
        TurnsStayWithinMeter(cfg, sv, model, lim, Run(Start(), [], 0, 0, false, TooManyTurns), 1);
      }
    } else {
      var n :| n >= 2 && consume(n).Rejected?;
      RejectionSendsTwice(consume, n);
      OneTurn(Small(), Allowing(consume), TwiceSent(n));
    }
  }
}
