/** Session keys over whole runs: each is burned at most once and commits at most once, and the
    ether sent out under it is the value received, within the cap of its certificate. */
module SessionKeys {
  import opened Base
  import opened Storage
  import opened IdentityStore
  import opened Execution
  import opened Linear

  // ---------------------------------------------------------------------------
  // Single use
  // ---------------------------------------------------------------------------

  function One(b: bool): nat {
    if b then 1 else 0
  }

  // How often key k was burned, was burned without success, or belongs to a committed success.
  function Burned(log: History, k: Address): nat {
    match log
    case Start => 0
    case Snoc(before, e) =>
      Burned(before, k)
      + One((e.Opened? && e.frame.BurnsKey() && e.frame.session == k) || (e.SoftBurned? && e.session == k))
  }

  function SoftlyBurned(log: History, k: Address): nat {
    match log
    case Start => 0
    case Snoc(before, e) => SoftlyBurned(before, k) + One(e.SoftBurned? && e.session == k)
  }

  function Committed(log: History, k: Address): nat {
    match log
    case Start => 0
    case Snoc(before, e) =>
      Committed(before, k)
      + One((e.Executed? || e.MulticallExecuted? || e.UserOpValidated?) && e.session == k)
  }

  function InFlight(frames: Frames, k: Address): nat {
    if frames.Idle? then 0
    else One(frames.top.BurnsKey() && frames.top.session == k) + InFlight(frames.below, k)
  }

  predicate KeyKept(s: State, k: Address) {
    && Burned(s.log, k) == One(k in s.usedSessionKeys)
    && Burned(s.log, k) == Committed(s.log, k) + InFlight(s.frames, k) + SoftlyBurned(s.log, k)
  }

  lemma EffectKeepsKey(s: State, e: Effect, k: Address)
    requires Enabled(s, e) && KeyKept(s, k)
    ensures KeyKept(Affect(s, e), k)
    ensures s.usedSessionKeys <= Affect(s, e).usedSessionKeys
  {
  }

  lemma StepKeepsKey(c: Chain, s: State, m: Small, k: Address)
    requires KeyKept(s, k) && Next(c, s, m).Some?
    ensures KeyKept(Next(c, s, m).value, k)
    ensures s.usedSessionKeys <= Next(c, s, m).value.usedSessionKeys
  {
    hide Direct, EnterExecute, EnterMulticall, CheckUserOp;
    if m.Step? {
      DirectShape(c, m.now, s, m.sender, m.value, m.op);
    } else {
      var e := CallStepEffect(c, s, m);
      hide Next;
      EffectKeepsKey(s, e, k);
    }
  }

  lemma {:induction false} LineKeepsKey(c: Chain, s: State, line: seq<Small>, k: Address)
    requires KeyKept(s, k) && Steps(c, s, line).Some?
    ensures KeyKept(Steps(c, s, line).value, k)
    ensures s.usedSessionKeys <= Steps(c, s, line).value.usedSessionKeys
    decreases |line|
  {
    if line != [] {
      StepKeepsKey(c, s, line[0], k);
      hide Next, KeyKept;
      LineKeepsKey(c, Next(c, s, line[0]).value, line[1..], k);
    }
  }

  /** In every run, under arbitrary re-entrancy and rollback: a session key is part of at most one
      committed success, and it is marked used exactly when it was committed or softly burned. */
  lemma SessionKeysAreSingleUse(c: Chain, owner: Address, blocks: seq<Block>, k: Address)
    ensures var s := Run(c, Deployed(owner), blocks);
            && Committed(s.log, k) + SoftlyBurned(s.log, k) == One(k in s.usedSessionKeys)
            && Committed(s.log, k) <= 1
  {
    RunIsALine(c, Deployed(owner), blocks);
    LineKeepsKey(c, Deployed(owner), RunLine(c, Deployed(owner), blocks), k);
  }

  // A key once marked used stays so in every continuation of a run.
  lemma UsedKeysStayUsed(c: Chain, owner: Address, blocks: seq<Block>, more: seq<Block>)
    ensures Run(c, Deployed(owner), blocks).usedSessionKeys
            <= Run(c, Run(c, Deployed(owner), blocks), more).usedSessionKeys
  {
    var s := Run(c, Deployed(owner), blocks);
    RunIsALine(c, Deployed(owner), blocks);
    RunIsALine(c, s, more);
    LineKeepsKey(c, Deployed(owner), RunLine(c, Deployed(owner), blocks), 0);
    LineKeepsKey(c, s, RunLine(c, s, more), 0);
  }

  // ---------------------------------------------------------------------------
  // Value
  // ---------------------------------------------------------------------------

  // The sessions a sum ranges over: one of them, or all.
  predicate Counts(who: Option<Address>, kind: Kind, session: Address) {
    kind.Execution? && (who.None? || who.value == session)
  }

  function Times(b: bool, n: nat): nat {
    if b then n else 0
  }

  // Ether execute received with its calls, their certificates' caps, the ether it sent out, and
  // what its Executed events report.
  function Received(log: History, who: Option<Address>): nat {
    match log
    case Start => 0
    case Snoc(before, e) =>
      Received(before, who) + if e.Opened? then Times(Counts(who, e.frame.kind, e.frame.session), e.frame.value) else 0
  }

  function Caps(log: History, who: Option<Address>): nat {
    match log
    case Start => 0
    case Snoc(before, e) =>
      Caps(before, who) + if e.Opened? then Times(Counts(who, e.frame.kind, e.frame.session), e.frame.cap) else 0
  }

  function Forwarded(log: History, who: Option<Address>): nat {
    match log
    case Start => 0
    case Snoc(before, e) =>
      Forwarded(before, who) + if e.CalledOut? then Times(Counts(who, e.kind, e.session), e.call.value) else 0
  }

  function Reported(log: History, who: Option<Address>): nat {
    match log
    case Start => 0
    case Snoc(before, e) =>
      Reported(before, who) + if e.Executed? then Times(Counts(who, Execution, e.session), e.value) else 0
  }

  function ToSend(todo: seq<Call>): nat {
    if todo == [] then 0 else todo[0].value + ToSend(todo[1..])
  }

  function Outstanding(frames: Frames, who: Option<Address>): nat {
    if frames.Idle? then 0
    else Times(Counts(who, frames.top.kind, frames.top.session), ToSend(frames.top.todo)) + Outstanding(frames.below, who)
  }

  function Held(frames: Frames, who: Option<Address>): nat {
    if frames.Idle? then 0
    else Times(Counts(who, frames.top.kind, frames.top.session), frames.top.value) + Held(frames.below, who)
  }

  predicate WithinCaps(frames: Frames) {
    frames.Push? ==> (frames.top.kind.Execution? ==> frames.top.value <= frames.top.cap) && WithinCaps(frames.below)
  }

  predicate ValueKept(s: State, who: Option<Address>) {
    && Forwarded(s.log, who) + Outstanding(s.frames, who) == Received(s.log, who)
    && Reported(s.log, who) + Held(s.frames, who) == Received(s.log, who)
    && Received(s.log, who) <= Caps(s.log, who)
    && WithinCaps(s.frames)
  }

  lemma EffectKeepsValue(s: State, e: Effect, who: Option<Address>)
    requires Enabled(s, e) && ValueKept(s, who)
    ensures ValueKept(Affect(s, e), who)
  {
    match e {
      case Opening(f) => OpeningKeepsValue(s, f, who);
      case Burning(k) =>
      case Sending => SendingKeepsValue(s, who);
      case Closing => ClosingKeepsValue(s, who);
    }
    hide Affect;
  }

  lemma OpeningKeepsValue(s: State, f: Frame, who: Option<Address>)
    requires Enabled(s, Opening(f)) && ValueKept(s, who)
    ensures ValueKept(s.Open(f), who)
  {
    if f.kind.Execution? {
      assert f.todo[1..] == [];
      assert ToSend(f.todo) == f.value;
    }
  }

  lemma SendingKeepsValue(s: State, who: Option<Address>)
    requires Enabled(s, Sending) && ValueKept(s, who)
    ensures ValueKept(s.SendOut(s.frames.top.todo[0]), who)
  {
    var todo := s.frames.top.todo;
    assert ToSend(todo) == todo[0].value + ToSend(todo[1..]);
  }

  // A completion reports the frame's value, cut to 128 bits, and adds to no other sum.
  lemma CompletionReports(log: History, f: Frame, who: Option<Address>)
    ensures var after := Snoc(log, CompletionOf(f));
      && Reported(after, who) == Reported(log, who) + Times(Counts(who, f.kind, f.session), f.value % TWO_128)
      && Received(after, who) == Received(log, who) && Caps(after, who) == Caps(log, who)
      && Forwarded(after, who) == Forwarded(log, who)
  {
  }

  // A finished frame has nothing left to send, and its value was within 128 bits.
  lemma FinishedFrame(frames: Frames, who: Option<Address>)
    requires frames.Push? && frames.top.todo == [] && WithinCaps(frames)
    ensures var f := frames.top;
      && Outstanding(frames, who) == Outstanding(frames.below, who)
      && Held(frames, who) == Times(Counts(who, f.kind, f.session), f.value % TWO_128) + Held(frames.below, who)
      && WithinCaps(frames.below)
  {
    if Counts(who, frames.top.kind, frames.top.session) {
      assert frames.top.value < TWO_128;
    }
  }

  lemma ClosingKeepsValue(s: State, who: Option<Address>)
    requires Enabled(s, Closing) && ValueKept(s, who)
    ensures ValueKept(s.Close(), who)
  {
    hide CompletionOf, Reported, Received, Caps, Forwarded, Outstanding, Held, WithinCaps, Counts, Times;
    CompletionReports(s.log, s.frames.top, who);
    FinishedFrame(s.frames, who);
  }

  lemma StepKeepsValue(c: Chain, s: State, m: Small, who: Option<Address>)
    requires ValueKept(s, who) && Next(c, s, m).Some?
    ensures ValueKept(Next(c, s, m).value, who)
  {
    hide Direct, EnterExecute, EnterMulticall, CheckUserOp;
    if m.Step? {
      DirectShape(c, m.now, s, m.sender, m.value, m.op);
    } else {
      var e := CallStepEffect(c, s, m);
      hide Next;
      EffectKeepsValue(s, e, who);
    }
  }

  lemma {:induction false} LineKeepsValue(c: Chain, s: State, line: seq<Small>, who: Option<Address>)
    requires ValueKept(s, who) && Steps(c, s, line).Some?
    ensures ValueKept(Steps(c, s, line).value, who)
    decreases |line|
  {
    if line != [] {
      StepKeepsValue(c, s, line[0], who);
      hide Next, ValueKept;
      LineKeepsValue(c, Next(c, s, line[0]).value, line[1..], who);
    }
  }

  /** In every run: execute sends out exactly what it received, its events report exactly that sum
      (so the narrowing to uint128 loses nothing), and it is within the sum of the caps of the
      certificates it burned, for one session and for all sessions together. */
  lemma ExecuteSpendsWithinCaps(c: Chain, owner: Address, blocks: seq<Block>, who: Option<Address>)
    ensures var log := Run(c, Deployed(owner), blocks).log;
            Forwarded(log, who) == Reported(log, who) == Received(log, who) <= Caps(log, who)
  {
    RunIsALine(c, Deployed(owner), blocks);
    LineKeepsValue(c, Deployed(owner), RunLine(c, Deployed(owner), blocks), who);
  }

  // The cap of the certificate under which execute last ran for key k.
  function CertificateCap(log: History, k: Address): nat {
    match log
    case Start => 0
    case Snoc(before, e) =>
      if e.Opened? && e.frame.kind.Execution? && e.frame.session == k then e.frame.cap else CertificateCap(before, k)
  }

  lemma {:induction false} OneCertificate(log: History, k: Address)
    requires Burned(log, k) <= 1
    ensures Caps(log, Some(k)) == CertificateCap(log, k)
    ensures Burned(log, k) == 0 ==> Caps(log, Some(k)) == 0
  {
    if log.Snoc? {
      OneCertificate(log.before, k);
    }
  }

  // One session key spends at most the cap of its one certificate, over a whole run.
  lemma SessionSpendsWithinItsCap(c: Chain, owner: Address, blocks: seq<Block>, k: Address)
    ensures var log := Run(c, Deployed(owner), blocks).log;
            Forwarded(log, Some(k)) <= CertificateCap(log, k)
  {
    ExecuteSpendsWithinCaps(c, owner, blocks, Some(k));
    RunIsALine(c, Deployed(owner), blocks);
    LineKeepsKey(c, Deployed(owner), RunLine(c, Deployed(owner), blocks), k);
    OneCertificate(Run(c, Deployed(owner), blocks).log, k);
  }
}
