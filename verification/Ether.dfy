/** Conservation of ether over whole runs, re-entrant and rolled-back calls included. */
module Ether {
  import opened Base
  import opened TypedData
  import opened Storage
  import opened IdentityStore
  import opened Execution
  import opened Linear

  // Value sent along with one committed step.
  function Brings(m: Small): nat {
    match m
    case Step(_, _, value, _) => value
    case OpenExecute(_, value, _, _, _, _) => value
    case OpenMulticall(_, value, _, _, _) => value
    case _ => 0
  }

  function Inflow(line: seq<Small>): nat {
    if line == [] then 0 else Brings(line[0]) + Inflow(line[1..])
  }

  // Value of all calls the account has made.
  function Outflow(log: History): nat {
    match log
    case Start => 0
    case Snoc(before, e) => Outflow(before) + if e.CalledOut? then e.call.value else 0
  }

  predicate Receives(s: State, t: State, value: nat) {
    && t.balance == s.balance + value
    && (t.log == s.log || (t.log.Snoc? && t.log.before == s.log && !t.log.last.CalledOut?))
  }

  lemma CallConserves(c: Chain, now: Timestamp, s: State, sender: Address, value: Uint256, op: DirectOp)
    ensures Direct(c, now, s, sender, value, op).Ok? ==> Conserves(s, Direct(c, now, s, sender, value, op).st, value)
  {
    if op.ValidateIntent? || op.ValidateDelegatedIntent? {
      ValidationReceives(c, now, s, value, op);
      hide ValidateIntentStep, ValidateDelegatedStep;
    } else {
      hide Recover, ClearFlags, ValidateIntentStep, ValidateDelegatedStep;
    }
  }

  lemma ValidationReceives(c: Chain, now: Timestamp, s: State, value: Uint256, op: DirectOp)
    ensures op.ValidateIntent? ==>
      var o := ValidateIntentStep(c, now, s, value, op.intent); o.Ok? ==> Receives(s, o.st, value)
    ensures op.ValidateDelegatedIntent? ==>
      var o := ValidateDelegatedStep(c, now, s, value, op.delegation, op.intent); o.Ok? ==> Receives(s, o.st, value)
  {
    hide Recover;
  }

  lemma ExecuteCarries(c: Chain, now: Timestamp, s: State, value: Uint256, session: Signed<Session>,
                       intent: Signed<Intent>, target: Address, callData: Bytes)
    ensures var entered := EnterExecute(c, now, s, value, session, intent, target, callData);
            entered.Success? ==> entered.value.value == value
  {
    hide Recover;
  }

  lemma MulticallCarries(c: Chain, now: Timestamp, s: State, value: Uint256, session: Signed<Session>,
                         intent: Signed<Intent>, calls: seq<Call>)
    ensures var entered := EnterMulticall(c, now, s, value, session, intent, calls);
            entered.Success? ==> entered.value.value == value
  {
    hide Recover;
  }

  lemma UserOpCarriesNothing(c: Chain, now: Timestamp, s: State, sender: Address, op: PackedUserOp, missing: Uint256)
    ensures var v := CheckUserOp(c, now, s, sender, op, missing); v.Pass? ==> v.frame.value == 0
  {
    hide Recover, IsRecoverySelector;
  }

  predicate Conserves(s: State, t: State, value: nat) {
    t.balance + Outflow(t.log) == s.balance + Outflow(s.log) + value
  }

  lemma OpeningConserves(s: State, f: Frame)
    ensures Conserves(s, s.Open(f), f.value)
  {
  }

  lemma BurningConserves(s: State, session: Address)
    ensures Conserves(s, s.BurnSoftly(session), 0)
  {
  }

  lemma SendingConserves(s: State, call: Call)
    requires call.value <= s.balance && s.frames.Push?
    ensures Conserves(s, s.SendOut(call), 0)
  {
  }

  lemma ClosingConserves(s: State)
    requires s.frames.Push?
    ensures Conserves(s, s.Close(), 0)
  {
  }

  lemma StepConserves(c: Chain, s: State, m: Small)
    requires Next(c, s, m).Some?
    ensures Conserves(s, Next(c, s, m).value, Brings(m))
  {
    hide Direct, EnterExecute, EnterMulticall, CheckUserOp, Conserves;
    match m {
      case Step(now, sender, value, op) => CallConserves(c, now, s, sender, value, op);
      case OpenExecute(now, value, session, intent, target, callData) =>
        ExecuteCarries(c, now, s, value, session, intent, target, callData);
        OpeningConserves(s, EnterExecute(c, now, s, value, session, intent, target, callData).value);
      case OpenMulticall(now, value, session, intent, calls) =>
        MulticallCarries(c, now, s, value, session, intent, calls);
        OpeningConserves(s, EnterMulticall(c, now, s, value, session, intent, calls).value);
      case OpenUserOp(now, sender, userOp, missing) =>
        UserOpCarriesNothing(c, now, s, sender, userOp, missing);
        OpeningConserves(s, CheckUserOp(c, now, s, sender, userOp, missing).frame);
      case BurnUserOp(now, sender, userOp, missing) =>
        var v := CheckUserOp(c, now, s, sender, userOp, missing);
        BurningConserves(s, if v.Soft? then v.burned.value else v.frame.session);
      case MakeCall => SendingConserves(s, s.frames.top.todo[0]);
      case Return => ClosingConserves(s);
    }
  }

  lemma {:induction false} LineConserves(c: Chain, s: State, line: seq<Small>)
    requires Steps(c, s, line).Some?
    ensures var t := Steps(c, s, line).value; t.balance + Outflow(t.log) == s.balance + Outflow(s.log) + Inflow(line)
    decreases |line|
  {
    if line != [] {
      StepConserves(c, s, line[0]);
      hide Next, Brings;
      LineConserves(c, Next(c, s, line[0]).value, line[1..]);
    }
  }

  /** In every run the account holds exactly what its committed calls brought in, less what the calls it
      made took out: value of calls that were rolled back counts on neither side. */
  lemma EtherIsConserved(c: Chain, owner: Address, blocks: seq<Block>)
    ensures var end := Run(c, Deployed(owner), blocks);
            end.balance + Outflow(end.log) == Inflow(RunLine(c, Deployed(owner), blocks))
  {
    RunIsALine(c, Deployed(owner), blocks);
    LineConserves(c, Deployed(owner), RunLine(c, Deployed(owner), blocks));
  }
}
