/**
 * `crankVault`: one pass of a keeper over one expired vault, as functions on the state of the pass.
 *
 * Every `await` is one tick of a script. At a tick any number of other crankers act first, then the
 * awaited call succeeds or faults. `Next` is a normal return, `Stop` an exception on its way out; the
 * operator `:-` passes an exception on, and `Catch` is the catch block of the token phases.
 */
module Crank {
  import opened Prelude
  import opened Bits
  import opened Mints
  import opened Ledger

  const BATCH := 8

  /** `isOperationalCrankError` holds of the middle two; `TooEarly` is the program's `CloseDelayNotElapsed`. */
  datatype Fault = Fine | Operational | TooEarly | Fatal

  predicate IsOperational(f: Fault) {
    f == Operational || f == TooEarly
  }

  /** `lands`: a submission that reports an error may still have landed. */
  datatype Tick = Tick(others: seq<Ix>, fault: Fault, lands: bool)

  /** What the injected `canSubmit` does when it is called; a rejection counts as a throw. */
  datatype Answer = Yes | No | Threw

  /**
   * The vault, the script of awaits and the guard. The keeper's guard is itself awaited; the server's
   * answers at once.
   */
  datatype Env = Env(v: Vault, tick: nat -> Tick, canSubmit: nat -> Answer, asyncGuard: bool)

  datatype Event = Submitted(ix: Ix, seen: State, stuck: set<Pubkey>)

  datatype Skip = Skip(mint: Pubkey, step: string)

  /** Where in the pass a call is made: in a try block for a mint, in that of a SOL bequest, or in neither. */
  datatype Block = Outside | SolBlock | TokenBlock(mint: Pubkey, step: string)

  /** A call that could throw, the await it was made at, and what it threw. */
  datatype Call = Call(block: Block, clock: nat, failure: Option<Fault>)

  /**
   * The ledger, the clock of awaits, the guard calls so far, the submissions so far, then the local variables;
   * `block` is where the pass stands, `calls` what it called so far.
   */
  datatype Pass = Pass(
    ledger: State,
    clock: nat,
    guards: nat,
    trace: seq<Event>,
    stuck: set<Pubkey>,
    skipped: seq<Skip>,
    planMask: nat,
    solMask: nat,
    completed: bool,
    info: seq<Held>,
    mints: seq<MintInfo>,
    executed: bool,
    block: Block,
    calls: seq<Call>)

  function Start(s: State): Pass {
    Pass(s, 0, 0, [], {}, [], 0, 0, false, [], [], false, Outside, [])
  }

  datatype Exit = Halted | Raised(fault: Fault)

  datatype Flow = Next(pass: Pass) | Stop(pass: Pass, why: Exit) {
    predicate IsFailure() { Stop? }
    function PropagateFailure(): Flow { this }
    function Extract(): Pass { pass }
  }

  predicate Good(e: Env, p: Pass) {
    e.v.Valid() && WellFormed(e.v, p.ledger)
  }

  predicate Later(p: Pass, q: Pass) {
    p.trace <= q.trace && p.guards <= q.guards
  }

  /** Nobody else acts, no call faults and the guard agrees. */
  ghost predicate Quiet(e: Env) {
    forall k: nat :: e.tick(k).others == [] && e.tick(k).fault == Fine && e.canSubmit(k) == Yes
  }

  // ---- awaits ----

  function Await(e: Env, p: Pass): (q: Pass)
    requires Good(e, p)
    ensures Good(e, q) && Later(p, q)
  {
    p.(ledger := LandAll(e.v, p.ledger, e.tick(p.clock).others), clock := p.clock + 1)
  }

  function Record(p: Pass, clock: nat, failure: Option<Fault>): Pass {
    p.(calls := p.calls + [Call(p.block, clock, failure)])
  }

  function Enter(p: Pass, block: Block): Pass {
    p.(block := block)
  }

  function Failure(f: Fault): Option<Fault> {
    if f == Fine then None else Some(f)
  }

  /** A bounded read. Its value is the ledger of the resulting pass. */
  function Read(e: Env, p: Pass): (r: Flow)
    requires Good(e, p)
    ensures Good(e, r.pass) && Later(p, r.pass)
  {
    var fault := e.tick(p.clock).fault;
    var q := Record(Await(e, p), p.clock, Failure(fault));
    if fault == Fine then Next(q) else Stop(q, Raised(fault))
  }

  /** `await guard()`: anything but a positive answer halts the pass. */
  function Guard(e: Env, p: Pass): (r: Flow)
    requires Good(e, p)
    ensures Good(e, r.pass) && Later(p, r.pass)
  {
    var q := (if e.asyncGuard then Await(e, p) else p).(guards := p.guards + 1);
    if e.canSubmit(p.guards) == Yes then Next(q) else Stop(q, Halted)
  }

  /** What the program says to a transaction that it rejects. */
  function Rejection(s: State, ix: Ix): Fault {
    if ix == CloseVault && s.executed && s.dists == map[] && !s.delayOver then TooEarly else Operational
  }

  /** `await ....rpc()`: a rejected transaction is an operational failure. */
  function Send(e: Env, p: Pass, ix: Ix): (r: Flow)
    requires Good(e, p)
    ensures Good(e, r.pass) && Later(p, r.pass)
  {
    var tick := e.tick(p.clock);
    var w := Await(e, p.(trace := p.trace + [Submitted(ix, p.ledger, p.stuck)]));
    var landed := w.(ledger := Land(e.v, w.ledger, ix));
    if tick.fault != Fine then Stop(Record(if tick.lands then landed else w, p.clock, Some(tick.fault)), Raised(tick.fault))
    else if Enabled(e.v, w.ledger, ix) then Next(Record(landed, p.clock, None))
    else
      var fault := Rejection(w.ledger, ix);
      Stop(Record(w, p.clock, Some(fault)), Raised(fault))
  }

  function Submit(e: Env, p: Pass, ix: Ix): (r: Flow)
    requires Good(e, p)
    ensures Good(e, r.pass) && Later(p, r.pass)
  {
    var p :- Guard(e, p);
    Send(e, p, ix)
  }

  /** For a beneficiary: the address of its account is derived first, which throws for a wallet off the curve. */
  function EnsureFor(e: Env, p: Pass, ata: Ata): (r: Flow)
    requires Good(e, p)
    ensures Good(e, r.pass) && Later(p, r.pass)
  {
    if ata.wallet in e.v.offCurve then Stop(Record(p, p.clock, Some(Fatal)), Raised(Fatal)) else EnsureAta(e, p, ata)
  }

  function EnsureAta(e: Env, p: Pass, ata: Ata): (r: Flow)
    requires Good(e, p)
    ensures Good(e, r.pass) && Later(p, r.pass)
  {
    var p :- Read(e, p);
    if Exists(e.v, p.ledger, ata) then Next(p) else Submit(e, p, CreateAta(ata))
  }

  /** The catch block: a halt and a fatal fault go on, an operational failure marks the mint stuck. */
  function Catch(r: Flow, mint: Pubkey, step: string): Flow {
    if r.Next? then Next(Enter(r.pass, Outside))
    else if r.why.Raised? && IsOperational(r.why.fault) then
      Next(Enter(r.pass, Outside).(stuck := r.pass.stuck + {mint}, skipped := r.pass.skipped + [Skip(mint, step)]))
    else r
  }

  /** The same for a SOL bequest, which is skipped without marking a mint. */
  function CatchSol(r: Flow): Flow {
    if r.Next? then Next(Enter(r.pass, Outside))
    else if r.why.Raised? && IsOperational(r.why.fault) then
      Next(Enter(r.pass, Outside).(skipped := r.pass.skipped + [Skip("SOL", "execute_specific_sol")]))
    else r
  }

  // ---- 1. begin_execution ----

  function BeginLog(e: Env, p: Pass): (r: Flow)
    requires Good(e, p)
    ensures Good(e, r.pass) && Later(p, r.pass)
  {
    var p :- Read(e, p);
    if p.ledger.log.Some? then Next(p)
    else
      var p :- Submit(e, p, BeginExecution);
      Read(e, p)
  }

  function ReadPlan(e: Env, p: Pass): (r: Flow)
    requires Good(e, p)
    ensures Good(e, r.pass) && Later(p, r.pass)
  {
    if e.v.plan.None? then Next(p)
    else
      var p :- Read(e, p);
      Next(p.(planMask := Mask(p.ledger.planPaid)))
  }

  // ---- collectMints ----

  function ScanProgram(e: Env, p: Pass, program: Pubkey): (r: Flow)
    requires Good(e, p)
    ensures Good(e, r.pass) && Later(p, r.pass)
  {
    var p :- Read(e, p);
    Next(p.(info := AddAccounts(p.info, OfProgram(Accounts(e.v, p.ledger), program), program)))
  }

  /**
   * The mint-owner lookup with its retries is one tick. An operational fault either exhausts the
   * retries, which yields no account, or meets the deadline of the pass, which throws.
   */
  function LookUp(e: Env, p: Pass, mint: Pubkey): (r: Flow)
    requires Good(e, p)
    ensures Good(e, r.pass) && Later(p, r.pass)
  {
    var tick := e.tick(p.clock);
    var throws := tick.fault == Fatal || (tick.fault != Fine && !tick.lands);
    var q := Record(Await(e, p), p.clock, if throws then Some(tick.fault) else None);
    if throws then Stop(q, Raised(tick.fault))
    else if tick.fault != Fine || mint !in e.v.programOf then Next(q)
    else Next(q.(info := q.info + [Held(mint, e.v.programOf[mint], 0, true)]))
  }

  function PlanMints(e: Env, p: Pass, j: nat): (r: Flow)
    requires Good(e, p) && j <= |e.v.Assignments()|
    ensures Good(e, r.pass) && Later(p, r.pass)
    decreases |e.v.Assignments()| - j
  {
    if j == |e.v.Assignments()| then Next(p)
    else
      var mint := e.v.Assignments()[j].mint;
      if mint == DEFAULT_KEY then PlanMints(e, p, j + 1)
      else if Has(p.info, mint) then PlanMints(e, p.(info := MarkPlanned(p.info, mint)), j + 1)
      else
        var p :- LookUp(e, p, mint);
        PlanMints(e, p, j + 1)
  }

  function CollectMints(e: Env, p: Pass): (r: Flow)
    requires Good(e, p)
    ensures Good(e, r.pass) && Later(p, r.pass)
  {
    var p :- ScanProgram(e, p.(info := []), TOKEN_PROGRAM);
    var p :- ScanProgram(e, p, TOKEN_2022_PROGRAM);
    var p :- PlanMints(e, p, 0);
    Next(p.(mints := Infos(Choose(p.info))))
  }

  // ---- 2. begin_token_dist per mint ----

  function TryBegin(e: Env, p: Pass, m: MintInfo): (r: Flow)
    requires Good(e, p)
    ensures Good(e, r.pass) && Later(p, r.pass)
  {
    var p := Enter(p, TokenBlock(m.mint, "begin_token_dist"));
    var p :- EnsureAta(e, p, Ata(e.v.key, m.mint, m.program));
    Submit(e, p, BeginTokenDist(m.mint, m.program))
  }

  function BeginDist(e: Env, p: Pass, m: MintInfo): (r: Flow)
    requires Good(e, p)
    ensures Good(e, r.pass) && Later(p, r.pass)
  {
    var p :- Read(e, p);
    if m.mint in p.ledger.dists then Next(p)
    else Catch(TryBegin(e, p, m), m.mint, "begin_token_dist")
  }

  function BeginDists(e: Env, p: Pass, mints: seq<MintInfo>): (r: Flow)
    requires Good(e, p)
    ensures Good(e, r.pass) && Later(p, r.pass)
    decreases |mints|
  {
    if mints == [] then Next(p)
    else
      var p :- BeginDist(e, p, mints[0]);
      BeginDists(e, p, mints[1..])
  }

  // ---- 3. specific bequests ----

  function ProgramFor(mints: seq<MintInfo>, mint: Pubkey): Pubkey {
    if mints == [] then TOKEN_PROGRAM
    else if mints[0].mint == mint then mints[0].program
    else ProgramFor(mints[1..], mint)
  }

  function TryBequest(e: Env, p: Pass, j: nat): (r: Flow)
    requires Good(e, p) && j < |e.v.Assignments()|
    ensures Good(e, r.pass) && Later(p, r.pass)
  {
    var a := e.v.Assignments()[j];
    var program := ProgramFor(p.mints, a.mint);
    var p := Enter(p, TokenBlock(a.mint, "execute_specific_asset"));
    var p :- EnsureFor(e, p, Ata(e.v.Wallet(a.beneficiary), a.mint, program));
    Submit(e, p, SpecificAsset(j, program))
  }

  function Bequest(e: Env, p: Pass, j: nat): (r: Flow)
    requires Good(e, p) && j < |e.v.Assignments()|
    ensures Good(e, r.pass) && Later(p, r.pass)
  {
    hide WellFormed;
    var mint := e.v.Assignments()[j].mint;
    if BitSet(p.planMask, j) then Next(p)
    else if mint == DEFAULT_KEY then CatchSol(Submit(e, Enter(p, SolBlock), SpecificSol(j)))
    else if mint in p.stuck then Next(p)
    else Catch(TryBequest(e, p, j), mint, "execute_specific_asset")
  }

  function Bequests(e: Env, p: Pass, j: nat): (r: Flow)
    requires Good(e, p) && j <= |e.v.Assignments()|
    ensures Good(e, r.pass) && Later(p, r.pass)
    decreases |e.v.Assignments()| - j
  {
    if j == |e.v.Assignments()| then Next(p)
    else
      var p :- Bequest(e, p, j);
      Bequests(e, p, j + 1)
  }

  // ---- 4. SOL shares ----

  function Unpaid(mask: nat, n: nat): seq<nat> {
    if n == 0 then [] else Unpaid(mask, n - 1) + (if BitSet(mask, n - 1) then [] else [n - 1])
  }

  function Chunk(s: seq<nat>, n: nat): seq<seq<nat>>
    requires n > 0
    decreases |s|
  {
    if s == [] then [] else [s[..Min(n, |s|)]] + Chunk(s[Min(n, |s|)..], n)
  }

  /** `executionLog.fetch` throws while there is no such account. */
  function ReadLog(e: Env, p: Pass): (r: Flow)
    requires Good(e, p)
    ensures Good(e, r.pass) && Later(p, r.pass)
  {
    var p :- Read(e, p);
    if p.ledger.log.None? then Stop(Record(p, p.clock - 1, Some(Operational)), Raised(Operational))
    else Next(p.(solMask := Mask(p.ledger.log.value.solPaid), completed := p.ledger.log.value.completed))
  }

  function SolBatches(e: Env, p: Pass, parts: seq<seq<nat>>): (r: Flow)
    requires Good(e, p)
    ensures Good(e, r.pass) && Later(p, r.pass)
    decreases |parts|
  {
    if parts == [] then Next(p)
    else
      var p :- Submit(e, p, SolShares(parts[0]));
      SolBatches(e, p, parts[1..])
  }

  function PaySol(e: Env, p: Pass): (r: Flow)
    requires Good(e, p)
    ensures Good(e, r.pass) && Later(p, r.pass)
  {
    var p :- ReadLog(e, p);
    SolBatches(e, p, Chunk(Unpaid(p.solMask, |e.v.beneficiaries|), BATCH))
  }

  // ---- 5. finalize ----

  /** The gate the keeper writes out in place. */
  predicate KeeperGate(e: Env, p: Pass) {
    var solFull := p.solMask == FullMask(|e.v.beneficiaries|);
    var planFull := e.v.plan.None? || p.planMask == FullMask(|e.v.Assignments()|);
    !p.completed && solFull && planFull && |p.stuck| == 0
  }

  function FinalizeIfFull(e: Env, p: Pass): (r: Flow)
    requires Good(e, p)
    ensures Good(e, r.pass) && Later(p, r.pass)
  {
    var p :- ReadLog(e, p);
    var p :- ReadPlan(e, p);
    if KeeperGate(e, p) then Submit(e, p, Finalize) else Next(p)
  }

  // ---- 6. token shares ----

  function EnsureAtas(e: Env, p: Pass, m: MintInfo, part: seq<nat>): (r: Flow)
    requires Good(e, p) && forall k :: 0 <= k < |part| ==> part[k] < |e.v.beneficiaries|
    ensures Good(e, r.pass) && Later(p, r.pass)
    decreases |part|
  {
    if part == [] then Next(p)
    else
      var p :- EnsureFor(e, p, Ata(e.v.Wallet(part[0]), m.mint, m.program));
      EnsureAtas(e, p, m, part[1..])
  }

  predicate InRange(parts: seq<seq<nat>>, n: nat) {
    forall k, i :: 0 <= k < |parts| && 0 <= i < |parts[k]| ==> parts[k][i] < n
  }

  function TokenBatches(e: Env, p: Pass, m: MintInfo, parts: seq<seq<nat>>): (r: Flow)
    requires Good(e, p) && InRange(parts, |e.v.beneficiaries|)
    ensures Good(e, r.pass) && Later(p, r.pass)
    decreases |parts|
  {
    if parts == [] then Next(p)
    else
      var p :- EnsureAtas(e, p, m, parts[0]);
      var p :- Submit(e, p, TokenShares(m.mint, m.program, parts[0]));
      TokenBatches(e, p, m, parts[1..])
  }

  lemma {:induction false} UnpaidSpec(mask: nat, n: nat)
    ensures forall i: nat :: i in Unpaid(mask, n) <==> i < n && !BitSet(mask, i)
    ensures forall k, l :: 0 <= k < l < |Unpaid(mask, n)| ==> Unpaid(mask, n)[k] < Unpaid(mask, n)[l]
  {
    if n > 0 {
      var rest := Unpaid(mask, n - 1);
      UnpaidSpec(mask, n - 1);
      forall k | 0 <= k < |rest| ensures rest[k] < n - 1 {
        assert rest[k] in rest;
      }
    }
  }

  /** Cutting into batches loses, repeats and reorders nothing; every batch holds between 1 and n indices. */
  lemma {:induction false} ChunkSpec(s: seq<nat>, n: nat)
    requires n > 0
    ensures Flatten(Chunk(s, n)) == s
    ensures forall k :: 0 <= k < |Chunk(s, n)| ==> 1 <= |Chunk(s, n)[k]| <= n && forall i :: i in Chunk(s, n)[k] ==> i in s
    decreases |s|
  {
    if s != [] {
      var c := Min(n, |s|);
      ChunkSpec(s[c..], n);
      assert s == s[..c] + s[c..];
    }
  }

  lemma BatchesInRange(mask: nat, n: nat)
    ensures InRange(Chunk(Unpaid(mask, n), BATCH), n)
  {
    var parts := Chunk(Unpaid(mask, n), BATCH);
    UnpaidSpec(mask, n);
    ChunkSpec(Unpaid(mask, n), BATCH);
    forall k, i | 0 <= k < |parts| && 0 <= i < |parts[k]| ensures parts[k][i] < n {
      assert parts[k][i] in parts[k];
    }
  }

  function PayToken(e: Env, p: Pass, m: MintInfo): (r: Flow)
    requires Good(e, p)
    ensures Good(e, r.pass) && Later(p, r.pass)
  {
    hide WellFormed;
    if m.mint in p.stuck then Next(p)
    else
      var p :- Read(e, p);
      if m.mint !in p.ledger.dists then Next(p)
      else
        var mask := Mask(p.ledger.dists[m.mint].paid);
        BatchesInRange(mask, |e.v.beneficiaries|);
        var inside := Enter(p, TokenBlock(m.mint, "execute_token_shares"));
        Catch(TokenBatches(e, inside, m, Chunk(Unpaid(mask, |e.v.beneficiaries|), BATCH)), m.mint, "execute_token_shares")
  }

  function PayTokens(e: Env, p: Pass, mints: seq<MintInfo>): (r: Flow)
    requires Good(e, p)
    ensures Good(e, r.pass) && Later(p, r.pass)
    decreases |mints|
  {
    if mints == [] then Next(p)
    else
      var p :- PayToken(e, p, mints[0]);
      PayTokens(e, p, mints[1..])
  }

  // ---- 7. close ----

  /** A best-effort read: only a fatal fault escapes. */
  function Peek(e: Env, p: Pass): (q: Pass)
    requires Good(e, p)
    ensures Good(e, q) && Later(p, q)
  {
    Record(Await(e, p), p.clock, if e.tick(p.clock).fault == Fatal then Some(Fatal) else None)
  }

  /** Whatever else goes wrong with reading the vault's token account means no dust. */
  function TryClose(e: Env, p: Pass, m: MintInfo): (r: Flow)
    requires Good(e, p)
    ensures Good(e, r.pass) && Later(p, r.pass)
  {
    var fault := e.tick(p.clock).fault;
    var p := Peek(e, Enter(p, TokenBlock(m.mint, "close_token_dist")));
    if fault == Fatal then Stop(p, Raised(Fatal))
    else
      var found := fault == Fine && Exists(e.v, p.ledger, Ata(e.v.key, m.mint, m.program));
      var dust := found && OwnOf(p.ledger, m.mint) > 0;
      var withheld := found && m.mint in p.ledger.withheld;
      var wallet := LargestWallet(e.v);
      var p :- if dust then EnsureFor(e, p, Ata(wallet, m.mint, m.program)) else Next(p);
      Submit(e, p, CloseTokenDist(m.mint, m.program, if dust then Some(wallet) else None, withheld))
  }

  function CloseDist(e: Env, p: Pass, m: MintInfo): (r: Flow)
    requires Good(e, p)
    ensures Good(e, r.pass) && Later(p, r.pass)
  {
    hide WellFormed;
    if m.mint in p.stuck then Next(p)
    else
      var p :- Read(e, p);
      if m.mint !in p.ledger.dists || Mask(p.ledger.dists[m.mint].paid) != FullMask(|e.v.beneficiaries|) then Next(p)
      else Catch(TryClose(e, p, m), m.mint, "close_token_dist")
  }

  function CloseDists(e: Env, p: Pass, mints: seq<MintInfo>): (r: Flow)
    requires Good(e, p)
    ensures Good(e, r.pass) && Later(p, r.pass)
    decreases |mints|
  {
    if mints == [] then Next(p)
    else
      var p :- CloseDist(e, p, mints[0]);
      CloseDists(e, p, mints[1..])
  }

  function CloseIfExecuted(e: Env, p: Pass): (r: Flow)
    requires Good(e, p)
    ensures Good(e, r.pass) && Later(p, r.pass)
  {
    var p :- Read(e, p);
    var p := p.(executed := p.ledger.executed);
    if p.executed then CloseDists(e, p, p.mints) else Next(p)
  }

  /** Step 1 and the choice of mints. */
  function Prepare(e: Env, p: Pass): (r: Flow)
    requires Good(e, p)
    ensures Good(e, r.pass) && Later(p, r.pass)
  {
    var p :- BeginLog(e, p);
    var p :- ReadPlan(e, p);
    CollectMints(e, p)
  }

  /** Steps 2 and 3. */
  function PayBequests(e: Env, p: Pass): (r: Flow)
    requires Good(e, p)
    ensures Good(e, r.pass) && Later(p, r.pass)
  {
    var p :- BeginDists(e, p, p.mints);
    Bequests(e, p, 0)
  }

  /** Steps 4 to 7. */
  function Distribute(e: Env, p: Pass): (r: Flow)
    requires Good(e, p)
    ensures Good(e, r.pass) && Later(p, r.pass)
  {
    hide WellFormed, PaySol, FinalizeIfFull, PayTokens, CloseIfExecuted;
    var p :- PaySol(e, p);
    var p :- FinalizeIfFull(e, p);
    var p :- PayTokens(e, p, p.mints);
    CloseIfExecuted(e, p)
  }

  /** The steps that the keeper and the server share. */
  function Phases(e: Env, p: Pass): (r: Flow)
    requires Good(e, p)
    ensures Good(e, r.pass) && Later(p, r.pass)
  {
    hide WellFormed, Prepare, PayBequests, Distribute;
    var p :- Prepare(e, p);
    var p :- PayBequests(e, p);
    Distribute(e, p)
  }

  /** The keeper's whole pass: the priority-fee read comes first. */
  function CrankVault(e: Env, p: Pass): (r: Flow)
    requires Good(e, p)
    ensures Good(e, r.pass) && Later(p, r.pass)
  {
    hide WellFormed, Phases;
    var p :- Read(e, p);
    Phases(e, p)
  }
}
