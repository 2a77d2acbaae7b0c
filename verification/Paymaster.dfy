/** HuntKeyPaymaster.sol: sponsorship, and collection of ERC-20 tokens for gas, against the token
    ledger of the repository's paymaster tests. */
module Paymaster {
  import opened Base
  import opened Words

  const ONE_ETHER: nat := 1_000_000_000_000_000_000

  datatype Refusal =
    | OnlyOwner | OnlyEntryPoint | UnsupportedMode | AccountNotSponsored | TokenNotAllowed | TokenTransferFailed
    | Panic          // checked arithmetic overflow
    | TokenReverted  // a require of the token itself

  // What validatePaymasterUserOp hands to postOp in token mode; sponsored mode hands over nothing.
  datatype Context = Context(account: Address, token: Address, maxCost: Uint256)

  // ---------------------------------------------------------------------------
  // Token ledgers
  // ---------------------------------------------------------------------------

  /** How a token's transferFrom reports: the tests' token reverts on failure and otherwise returns true; others
      answer false on failure, return nothing, or answer false whatever they did. */
  datatype Style = Reverting | Answering | Silent | Denying

  // What a low-level call sees: whether it succeeded, and the boolean in its return data, if there is any.
  datatype Reply = Reply(success: bool, answer: Option<bool>)
  {
    predicate Refuses() {
      !success || (answer.Some? && !answer.value)
    }
  }

  datatype Ledger = Ledger(
    style: Style, balances: map<Address, Uint256>, allowances: map<Address, map<Address, Uint256>>)
  {
    function Balance(a: Address): Uint256 { Read(balances, a, 0) }
    function Allowance(holder: Address, spender: Address): Uint256 { Read(Read(allowances, holder, map[]), spender, 0) }

    function TransferFrom(sender: Address, from: Address, to: Address, amount: Uint256): Option<Ledger> {
      if Allowance(from, sender) < amount || Balance(from) < amount then None
      else
        var debited := balances[from := Balance(from) - amount];
        if Read(debited, to, 0) + amount >= TWO_256 then None
        else
          Some(Ledger(style, debited[to := Read(debited, to, 0) + amount],
                      Approve(from, sender, Allowance(from, sender) - amount).allowances))
    }

    // transferFrom as a call: its reply, and the ledger it leaves.
    function CallTransferFrom(sender: Address, from: Address, to: Address, amount: Uint256): (Reply, Ledger) {
      match TransferFrom(sender, from, to, amount)
      case None => (if style.Answering? || style.Denying? then Reply(true, Some(false)) else Reply(false, None), this)
      case Some(moved) => (Reply(true, if style.Silent? then None else Some(!style.Denying?)), moved)
    }

    function Mint(to: Address, amount: Uint256): Option<Ledger> {
      if Balance(to) + amount >= TWO_256 then None else Some(this.(balances := balances[to := Balance(to) + amount]))
    }

    function Approve(holder: Address, spender: Address, amount: Uint256): Ledger {
      this.(allowances := allowances[holder := Read(allowances, holder, map[])[spender := amount]])
    }
  }

  class Erc20 {
    const style: Style
    var balanceOf: map<Address, Uint256>
    var allowance: map<Address, map<Address, Uint256>>

    function View(): Ledger
      reads this
    {
      Ledger(style, balanceOf, allowance)
    }

    constructor (style: Style)
      ensures View() == Ledger(style, map[], map[])
    {
      this.style := style;
      balanceOf, allowance := map[], map[];
    }

    method Mint(to: Address, amount: Uint256) returns (ok: bool)
      modifies this
      ensures ok <==> old(View()).Mint(to, amount).Some?
      ensures View() == if ok then old(View()).Mint(to, amount).value else old(View())
    {
      ok := Read(balanceOf, to, 0) + amount < TWO_256;
      if ok {
        balanceOf := balanceOf[to := Read(balanceOf, to, 0) + amount];
      }
    }

    method Approve(sender: Address, spender: Address, amount: Uint256)
      modifies this
      ensures View() == old(View()).Approve(sender, spender, amount)
    {
      allowance := allowance[sender := Read(allowance, sender, map[])[spender := amount]];
    }

    method Restore(l: Ledger)
      requires l.style == style
      modifies this
      ensures View() == l
    {
      balanceOf, allowance := l.balances, l.allowances;
    }

    // Moves balance and allowance; false leaves both mappings as before.
    method Move(sender: Address, from: Address, to: Address, amount: Uint256) returns (ok: bool)
      modifies this
      ensures var moved := old(View()).TransferFrom(sender, from, to, amount);
              (ok <==> moved.Some?) && View() == (if ok then moved.value else old(View()))
    {
      if Read(Read(allowance, from, map[]), sender, 0) < amount || Read(balanceOf, from, 0) < amount {
        return false;
      }
      var saved := View();
      allowance := allowance[from := Read(allowance, from, map[])[sender := saved.Allowance(from, sender) - amount]];
      balanceOf := balanceOf[from := Read(balanceOf, from, 0) - amount];
      ok := Read(balanceOf, to, 0) + amount < TWO_256;
      if ok {
        balanceOf := balanceOf[to := Read(balanceOf, to, 0) + amount];
      } else {
        Restore(saved);
      }
    }

    method TransferFrom(sender: Address, from: Address, to: Address, amount: Uint256) returns (reply: Reply)
      modifies this
      ensures var (answer, moved) := old(View()).CallTransferFrom(sender, from, to, amount);
              reply == answer && View() == moved
    {
      var ok := Move(sender, from, to, amount);
      match style {
        case Reverting => reply := if ok then Reply(true, Some(true)) else Reply(false, None);
        case Answering => reply := Reply(true, Some(ok));
        case Silent => reply := Reply(ok, None);
        case Denying => reply := Reply(true, Some(false));
      }
    }
  }

  // ---------------------------------------------------------------------------
  // The paymaster
  // ---------------------------------------------------------------------------

  // The paymaster at address `self`, and the token contracts that exist, by address.
  datatype State = State(
    self: Address, owner: Address, entryPoint: Address, sponsoredAccounts: set<Address>,
    tokenGasPrice: map<Address, Uint256>, ledgers: map<Address, Ledger>)
  {
    function Price(token: Address): Uint256 { Read(tokenGasPrice, token, 0) }
  }

  /** One settled token-mode postOp: the cost reported, the price then in force, the amount
      collected (0 when it rounds down to nothing). */
  datatype Payment = Payment(account: Address, token: Address, cost: Uint256, price: Uint256, amount: Uint256)

  function Validate(s: State, sender: Address, account: Address, paymasterAndData: Bytes, maxCost: Uint256)
    : Result<Option<Context>, Refusal>
  {
    if sender != s.entryPoint then Failure(OnlyEntryPoint)
    else if |paymasterAndData| < 21 then Failure(UnsupportedMode)
    else if paymasterAndData[20] == 1 then
      if account !in s.sponsoredAccounts then Failure(AccountNotSponsored) else Success(None)
    else if paymasterAndData[20] == 2 then
      if |paymasterAndData| < 41 then Failure(TokenNotAllowed)
      else
        var token := AddressOf(paymasterAndData[21..41]);
        if s.Price(token) == 0 then Failure(TokenNotAllowed) else Success(Some(Context(account, token, maxCost)))
    else Failure(UnsupportedMode)
  }

  datatype Settled = Settled(st: State, payment: Option<Payment>)

  function Settle(s: State, sender: Address, context: Option<Context>, cost: Uint256): Result<Settled, Refusal> {
    if sender != s.entryPoint then Failure(OnlyEntryPoint)
    else if context.None? then Success(Settled(s, None))
    else
      var Context(account, token, _) := context.value;
      if cost * s.Price(token) >= TWO_256 then Failure(Panic)
      else
        var amount := cost * s.Price(token) / ONE_ETHER;
        var payment := Some(Payment(account, token, cost, s.Price(token), amount));
        if amount == 0 || token !in s.ledgers then Success(Settled(s, payment))
        else
          var (reply, moved) := s.ledgers[token].CallTransferFrom(s.self, account, s.self, amount);
          if reply.Refuses() then Failure(TokenTransferFailed)
          else Success(Settled(s.(ledgers := s.ledgers[token := moved]), payment))
  }

  class HuntKeyPaymaster {
    const self: Address
    const tokens: map<Address, Erc20>
    var owner: Address
    var entryPoint: Address
    var sponsoredAccounts: set<Address>
    var tokenGasPrice: map<Address, Uint256>

    // Distinct addresses hold distinct contracts.
    ghost predicate Valid() {
      forall a, b :: a in tokens && b in tokens && a != b ==> tokens[a] != tokens[b]
    }

    function Ledgers(): map<Address, Ledger>
      reads tokens.Values
    {
      map a | a in tokens :: tokens[a].View()
    }

    function View(): State
      reads this, tokens.Values
    {
      State(self, owner, entryPoint, sponsoredAccounts, tokenGasPrice, Ledgers())
    }

    constructor (self: Address, deployer: Address, entryPoint: Address, tokens: map<Address, Erc20>)
      requires forall a, b :: a in tokens && b in tokens && a != b ==> tokens[a] != tokens[b]
      ensures Valid() && this.tokens == tokens
      ensures View() == State(self, deployer, entryPoint, {}, map[], Ledgers())
    {
      this.self, this.tokens, this.entryPoint := self, tokens, entryPoint;
      owner, sponsoredAccounts, tokenGasPrice := deployer, {}, map[];
    }

    method SetSponsoredAccount(sender: Address, account: Address, sponsored: bool) returns (r: Result<(), Refusal>)
      modifies this`sponsoredAccounts
      ensures r == if sender == owner then Success(()) else Failure(OnlyOwner)
      ensures sponsoredAccounts == if sender != owner then old(sponsoredAccounts)
                                   else if sponsored then old(sponsoredAccounts) + {account}
                                   else old(sponsoredAccounts) - {account}
    {
      if sender != owner { return Failure(OnlyOwner); }
      sponsoredAccounts := if sponsored then sponsoredAccounts + {account} else sponsoredAccounts - {account};
      r := Success(());
    }

    method SetTokenGasPrice(sender: Address, token: Address, pricePerGas: Uint256) returns (r: Result<(), Refusal>)
      modifies this`tokenGasPrice
      ensures r == if sender == owner then Success(()) else Failure(OnlyOwner)
      ensures tokenGasPrice == if sender == owner then old(tokenGasPrice)[token := pricePerGas] else old(tokenGasPrice)
    {
      if sender != owner { return Failure(OnlyOwner); }
      tokenGasPrice := tokenGasPrice[token := pricePerGas];
      r := Success(());
    }

    method ValidatePaymasterUserOp(sender: Address, account: Address, paymasterAndData: Bytes, maxCost: Uint256)
      returns (r: Result<Option<Context>, Refusal>)
      ensures r == Validate(View(), sender, account, paymasterAndData, maxCost)
    {
      if sender != entryPoint { return Failure(OnlyEntryPoint); }
      if |paymasterAndData| < 21 { return Failure(UnsupportedMode); }
      var mode := paymasterAndData[20];
      if mode == 1 {
        if account !in sponsoredAccounts { return Failure(AccountNotSponsored); }
        return Success(None);
      } else if mode == 2 {
        if |paymasterAndData| < 41 { return Failure(TokenNotAllowed); }
        var token := AddressOf(paymasterAndData[21..41]);
        if Read(tokenGasPrice, token, 0) == 0 { return Failure(TokenNotAllowed); }
        return Success(Some(Context(account, token, maxCost)));
      } else {
        return Failure(UnsupportedMode);
      }
    }

    method PostOp(sender: Address, context: Option<Context>, actualGasCost: Uint256)
      returns (r: Result<Option<Payment>, Refusal>)
      requires Valid()
      modifies tokens.Values
      ensures match Settle(old(View()), sender, context, actualGasCost)
              case Failure(e) => r == Failure(e) && View() == old(View())
              case Success(done) => r == Success(done.payment) && View() == done.st
    {
      if sender != entryPoint { return Failure(OnlyEntryPoint); }
      if context.None? { return Success(None); }
      var Context(account, token, _) := context.value;
      var price := Read(tokenGasPrice, token, 0);
      if actualGasCost * price >= TWO_256 { return Failure(Panic); }
      var amount: Uint256 := actualGasCost * price / ONE_ETHER;
      var payment := Payment(account, token, actualGasCost, price, amount);
      if amount == 0 { return Success(Some(payment)); }
      // A call to an address without code succeeds and returns nothing.
      if token in tokens {
        var saved := tokens[token].View();
        var reply := tokens[token].TransferFrom(self, account, self, amount);
        if reply.Refuses() {
          tokens[token].Restore(saved);
          return Failure(TokenTransferFailed);
        }
      }
      r := Success(Some(payment));
    }
  }

  // ---------------------------------------------------------------------------
  // Runs
  // ---------------------------------------------------------------------------

  // A call of the paymaster or of one of the tokens.
  datatype Action =
    | SetSponsoredAccount(account: Address, sponsored: bool)
    | SetTokenGasPrice(token: Address, pricePerGas: Uint256)
    | PostOp(context: Option<Context>, cost: Uint256)
    | Mint(token: Address, to: Address, amount: Uint256)
    | Approve(token: Address, spender: Address, amount: Uint256)
    | TransferFrom(token: Address, from: Address, to: Address, amount: Uint256)

  // What a committed call did to token balances.
  datatype Entry =
    | Paid(payment: Payment)
    | Minted(token: Address, to: Address, amount: Uint256)
    | Moved(token: Address, from: Address, to: Address, amount: Uint256)
    | Nothing

  datatype Done = Done(st: State, entry: Entry)

  function OnToken(s: State, token: Address, moved: Option<Ledger>, entry: Entry): Result<Done, Refusal> {
    if moved.None? then Failure(TokenReverted)
    else Success(Done(s.(ledgers := s.ledgers[token := moved.value]), entry))
  }

  function Act(s: State, sender: Address, a: Action): Result<Done, Refusal> {
    match a
    case SetSponsoredAccount(account, sponsored) =>
      if sender != s.owner then Failure(OnlyOwner)
      else
        Success(Done(s.(sponsoredAccounts :=
          if sponsored then s.sponsoredAccounts + {account} else s.sponsoredAccounts - {account}), Nothing))
    case SetTokenGasPrice(token, price) =>
      if sender != s.owner then Failure(OnlyOwner)
      else Success(Done(s.(tokenGasPrice := s.tokenGasPrice[token := price]), Nothing))
    case PostOp(context, cost) => (
      match Settle(s, sender, context, cost)
      case Failure(e) => Failure(e)
      case Success(done) => Success(Done(done.st, if done.payment.Some? then Paid(done.payment.value) else Nothing))
    )
    case Mint(token, to, amount) =>
      if token !in s.ledgers then Success(Done(s, Nothing))
      else OnToken(s, token, s.ledgers[token].Mint(to, amount), Minted(token, to, amount))
    case Approve(token, spender, amount) =>
      if token !in s.ledgers then Success(Done(s, Nothing))
      else OnToken(s, token, Some(s.ledgers[token].Approve(sender, spender, amount)), Nothing)
    case TransferFrom(token, from, to, amount) =>
      if token !in s.ledgers then Success(Done(s, Nothing))
      else
        var (reply, moved) := s.ledgers[token].CallTransferFrom(sender, from, to, amount);
        OnToken(s, token, if reply.success then Some(moved) else None,
                if s.ledgers[token].TransferFrom(sender, from, to, amount).Some? then Moved(token, from, to, amount)
                else Nothing)
  }

  // The state after a run and the entries of its committed calls, oldest first.
  function Run(s: State, calls: seq<(Address, Action)>): (State, seq<Entry>)
    decreases |calls|
  {
    if calls == [] then (s, [])
    else
      match Act(s, calls[0].0, calls[0].1)
      case Failure(_) => Run(s, calls[1..])
      case Success(done) => var (end, journal) := Run(done.st, calls[1..]); (end, [done.entry] + journal)
  }

  // ---------------------------------------------------------------------------
  // Rounding
  // ---------------------------------------------------------------------------

  predicate Pays(e: Entry, token: Address) {
    e.Paid? && e.payment.token == token
  }

  // Operations settled in a token.
  function Operations(journal: seq<Entry>, token: Address): nat {
    if journal == [] then 0 else Operations(journal[1..], token) + if Pays(journal[0], token) then 1 else 0
  }

  function Collected(journal: seq<Entry>, token: Address): nat {
    if journal == [] then 0
    else Collected(journal[1..], token) + if Pays(journal[0], token) then journal[0].payment.amount else 0
  }

  // The unrounded charge, in units of 10^-18 of the token's smallest denomination.
  function Owed(journal: seq<Entry>, token: Address): nat {
    if journal == [] then 0
    else Owed(journal[1..], token) + if Pays(journal[0], token) then journal[0].payment.cost * journal[0].payment.price else 0
  }

  lemma OneCharge(s: State, sender: Address, a: Action)
    ensures var o := Act(s, sender, a);
      o.Success? && o.value.entry.Paid? ==>
        var p := o.value.entry.payment;
        && sender == s.entryPoint && a.PostOp? && a.context == Some(Context(p.account, p.token, a.context.value.maxCost))
        && p.cost == a.cost && p.price == s.Price(p.token)
        && p.amount * ONE_ETHER <= p.cost * p.price < (p.amount + 1) * ONE_ETHER
  {
  }

  /** Over any run, at whatever prices the owner sets in between, the tokens collected for the
      settled operations never exceed the exact charge, and fall short by less than one unit of
      the token per operation. */
  lemma {:induction false} CollectionRoundsDown(s: State, calls: seq<(Address, Action)>, token: Address)
    ensures var journal := Run(s, calls).1;
      && Collected(journal, token) * ONE_ETHER <= Owed(journal, token)
      && Owed(journal, token) <= (Collected(journal, token) + Operations(journal, token)) * ONE_ETHER
      && (Operations(journal, token) > 0 ==>
            Owed(journal, token) < (Collected(journal, token) + Operations(journal, token)) * ONE_ETHER)
    decreases |calls|
  {
    if calls != [] {
      var first := Act(s, calls[0].0, calls[0].1);
      OneCharge(s, calls[0].0, calls[0].1);
      hide Act;
      CollectionRoundsDown(if first.Success? then first.value.st else s, calls[1..], token);
      if first.Success? {
        var journal := Run(s, calls).1;
        assert journal[1..] == Run(first.value.st, calls[1..]).1;
      }
    }
  }

  // ---------------------------------------------------------------------------
  // Conservation
  // ---------------------------------------------------------------------------

  ghost function Sum(m: map<Address, Uint256>): nat {
    if m == map[] then 0 else var k :| k in m; m[k] + Sum(m - {k})
  }

  // The sum does not depend on the order of summation.
  lemma {:induction false} SumRemove(m: map<Address, Uint256>, k: Address)
    requires k in m
    ensures Sum(m) == m[k] + Sum(m - {k})
    decreases |m|
  {
    var first :| first in m && Sum(m) == m[first] + Sum(m - {first});
    if first != k {
      SumRemove(m - {first}, k);
      SumRemove(m - {k}, first);
      assert m - {first} - {k} == m - {k} - {first};
    }
  }

  lemma SumUpdate(m: map<Address, Uint256>, k: Address, v: Uint256)
    ensures Sum(m[k := v]) == Sum(m) - Read(m, k, 0) + v
  {
    SumRemove(m[k := v], k);
    assert m[k := v] - {k} == m - {k};
    if k in m {
      SumRemove(m, k);
    } else {
      assert m - {k} == m;
    }
  }

  ghost function Supply(s: State, token: Address): nat
    requires token in s.ledgers
  {
    Total(s.ledgers[token])
  }

  ghost function Total(l: Ledger): nat {
    Sum(l.balances)
  }

  lemma TransferBooks(l: Ledger, sender: Address, from: Address, to: Address, amount: Uint256, holder: Address)
    requires l.TransferFrom(sender, from, to, amount).Some?
    ensures var t := l.TransferFrom(sender, from, to, amount).value;
      && Total(t) == Total(l)
      && t.Balance(holder)
         == l.Balance(holder) + (if holder == to then amount else 0) - (if holder == from then amount else 0)
  {
    hide Sum;
    var debited := l.balances[from := l.Balance(from) - amount];
    SumUpdate(l.balances, from, l.Balance(from) - amount);
    SumUpdate(debited, to, Read(debited, to, 0) + amount);
  }

  lemma ApproveKeepsTotal(l: Ledger, holder: Address, spender: Address, amount: Uint256)
    ensures Total(l.Approve(holder, spender, amount)) == Total(l)
  {
  }

  lemma MintBooks(l: Ledger, to: Address, amount: Uint256, holder: Address)
    requires l.Mint(to, amount).Some?
    ensures var t := l.Mint(to, amount).value;
      Total(t) == Total(l) + amount && t.Balance(holder) == l.Balance(holder) + (if holder == to then amount else 0)
  {
    hide Sum;
    SumUpdate(l.balances, to, l.Balance(to) + amount);
  }

  // What one entry adds to a holder's balance of a token.
  function Change(e: Entry, self: Address, token: Address, holder: Address): int {
    match e
    case Paid(p) =>
      if p.token != token then 0
      else (if holder == self then p.amount else 0) - (if holder == p.account then p.amount else 0)
    case Minted(t, to, amount) => if t == token && holder == to then amount else 0
    case Moved(t, from, to, amount) =>
      if t != token then 0 else (if holder == to then amount else 0) - (if holder == from then amount else 0)
    case Nothing => 0
  }

  function Net(journal: seq<Entry>, self: Address, token: Address, holder: Address): int {
    if journal == [] then 0 else Change(journal[0], self, token, holder) + Net(journal[1..], self, token, holder)
  }

  function Issued(journal: seq<Entry>, token: Address): nat {
    if journal == [] then 0
    else (if journal[0].Minted? && journal[0].token == token then journal[0].amount else 0) + Issued(journal[1..], token)
  }

  lemma SettleBooks(s: State, sender: Address, context: Option<Context>, cost: Uint256, token: Address, holder: Address)
    requires token in s.ledgers && Settle(s, sender, context, cost).Success?
    ensures var done := Settle(s, sender, context, cost).value;
      && done.st.self == s.self && token in done.st.ledgers
      && (var entry := if done.payment.Some? then Paid(done.payment.value) else Nothing;
          done.st.ledgers[token].Balance(holder) == s.ledgers[token].Balance(holder) + Change(entry, s.self, token, holder))
      && Supply(done.st, token) == Supply(s, token)
  {
    var done := Settle(s, sender, context, cost).value;
    if done.payment.Some? && done.payment.value.amount > 0 && done.payment.value.token == token {
      TransferBooks(s.ledgers[token], s.self, done.payment.value.account, s.self, done.payment.value.amount, holder);
    }
  }

  lemma ActBooks(s: State, sender: Address, a: Action, token: Address, holder: Address)
    requires token in s.ledgers && Act(s, sender, a).Success?
    ensures var done := Act(s, sender, a).value;
      && done.st.self == s.self && token in done.st.ledgers
      && done.st.ledgers[token].Balance(holder)
         == s.ledgers[token].Balance(holder) + Change(done.entry, s.self, token, holder)
      && Supply(done.st, token) == Supply(s, token) + Issued([done.entry], token)
  {
    hide Settle, Total, Ledger.TransferFrom, Ledger.Mint;
    match a {
      case PostOp(context, cost) => SettleBooks(s, sender, context, cost, token, holder);
      case Mint(t, to, amount) =>
        if t == token {
          MintBooks(s.ledgers[token], to, amount, holder);
        }
      case TransferFrom(t, from, to, amount) =>
        if t == token && s.ledgers[token].TransferFrom(sender, from, to, amount).Some? {
          TransferBooks(s.ledgers[token], sender, from, to, amount, holder);
        }
      case Approve(t, spender, amount) =>
        ApproveKeepsTotal(s.ledgers[token], sender, spender, amount);
      case _ =>
    }
  }

  /** Over any run, every balance of a token changes by exactly its entries, and the sum of all
      balances only by what was minted: collecting gas moves tokens and makes none. */
  lemma {:induction false} RunsKeepTheBooks(s: State, calls: seq<(Address, Action)>, token: Address, holder: Address)
    requires token in s.ledgers
    ensures var (end, journal) := Run(s, calls);
      && end.self == s.self && token in end.ledgers
      && end.ledgers[token].Balance(holder) == s.ledgers[token].Balance(holder) + Net(journal, s.self, token, holder)
      && Supply(end, token) == Supply(s, token) + Issued(journal, token)
    decreases |calls|
  {
    if calls != [] {
      var first := Act(s, calls[0].0, calls[0].1);
      if first.Success? {
        ActBooks(s, calls[0].0, calls[0].1, token, holder);
        hide Act;
        RunsKeepTheBooks(first.value.st, calls[1..], token, holder);
        assert Run(s, calls).1[1..] == Run(first.value.st, calls[1..]).1;
      } else {
        hide Act;
        RunsKeepTheBooks(s, calls[1..], token, holder);
      }
    }
  }

  // No call but a collection from somebody else touches the paymaster's own balance of the token.
  predicate OnlyCollects(self: Address, calls: seq<(Address, Action)>, token: Address) {
    forall c :: c in calls ==>
      && (c.1.Mint? && c.1.token == token ==> c.1.to != self)
      && (c.1.TransferFrom? && c.1.token == token ==> c.1.from != self && c.1.to != self)
      && (c.1.PostOp? && c.1.context.Some? && c.1.context.value.token == token ==> c.1.context.value.account != self)
  }

  lemma {:induction false} CollectingIsAllThatPays(s: State, calls: seq<(Address, Action)>, token: Address)
    requires OnlyCollects(s.self, calls, token)
    ensures var journal := Run(s, calls).1; Net(journal, s.self, token, s.self) == Collected(journal, token)
    decreases |calls|
  {
    if calls != [] {
      var first := Act(s, calls[0].0, calls[0].1);
      assert calls[0] in calls;
      var next := if first.Success? then first.value.st else s;
      assert next.self == s.self;
      assert first.Success? ==> Change(first.value.entry, s.self, token, s.self) == Collected([first.value.entry], token);
      hide Act;
      CollectingIsAllThatPays(next, calls[1..], token);
      assert first.Success? ==> Run(s, calls).1[1..] == Run(next, calls[1..]).1;
    }
  }

  /** What the paymaster really receives in a token over such a run lies within one unit per
      operation of the exact charge. */
  lemma ReceiptsMatchCharges(s: State, calls: seq<(Address, Action)>, token: Address)
    requires token in s.ledgers && OnlyCollects(s.self, calls, token)
    ensures var (end, journal) := Run(s, calls);
      && token in end.ledgers
      && var received := end.ledgers[token].Balance(s.self) - s.ledgers[token].Balance(s.self);
         && received * ONE_ETHER <= Owed(journal, token) <= (received + Operations(journal, token)) * ONE_ETHER
         && (Operations(journal, token) > 0 ==>
               Owed(journal, token) < (received + Operations(journal, token)) * ONE_ETHER)
  {
    RunsKeepTheBooks(s, calls, token, s.self);
    CollectingIsAllThatPays(s, calls, token);
    CollectionRoundsDown(s, calls, token);
  }

  // ---------------------------------------------------------------------------
  // Admission and settlement
  // ---------------------------------------------------------------------------

  /** An operation is admitted exactly when the entry point asks, and mode 1 names a sponsored account or mode 2 a
      priced token. Each refusal has its own cause, the first that applies. */
  lemma ValidateAdmits(s: State, sender: Address, account: Address, data: Bytes, maxCost: Uint256)
    ensures var o := Validate(s, sender, account, data, maxCost);
      var mode := if |data| >= 21 then data[20] else 0;
      && (o == Success(None) <==> sender == s.entryPoint && mode == 1 && account in s.sponsoredAccounts)
      && (o.Success? && o.value.Some? <==>
            sender == s.entryPoint && mode == 2 && |data| >= 41 && s.Price(AddressOf(data[21..41])) != 0)
      && (o.Success? && o.value.Some? ==> o.value.value == Context(account, AddressOf(data[21..41]), maxCost))
      && (o == Failure(OnlyEntryPoint) <==> sender != s.entryPoint)
      && (o == Failure(UnsupportedMode) <==> sender == s.entryPoint && mode != 1 && mode != 2)
      && (o == Failure(AccountNotSponsored) <==> sender == s.entryPoint && mode == 1 && account !in s.sponsoredAccounts)
      && (o == Failure(TokenNotAllowed) <==>
            sender == s.entryPoint && mode == 2 && (|data| < 41 || s.Price(AddressOf(data[21..41])) == 0))
  {
  }

  // The token can pay: allowance and balance cover the amount, the paymaster's balance does not overflow.
  predicate CanPay(s: State, account: Address, token: Address, amount: Uint256) {
    token in s.ledgers ==>
      && s.ledgers[token].Allowance(account, s.self) >= amount
      && s.ledgers[token].Balance(account) >= amount
      && (account == s.self || s.ledgers[token].Balance(s.self) + amount < TWO_256)
      && !s.ledgers[token].style.Denying?
  }

  /** A settlement goes through exactly when the entry point asks and there is nothing to collect, or the product of
      cost and price does not overflow and the token can pay its rounded quotient. */
  lemma SettleGoesThrough(s: State, sender: Address, context: Option<Context>, cost: Uint256)
    ensures var o := Settle(s, sender, context, cost);
      && (o == Failure(OnlyEntryPoint) <==> sender != s.entryPoint)
      && (context.None? && sender == s.entryPoint ==> o == Success(Settled(s, None)))
      && (context.Some? && sender == s.entryPoint ==>
            var Context(account, token, _) := context.value;
            var exact := cost * s.Price(token);
            && (o == Failure(Panic) <==> exact >= TWO_256)
            && (exact < TWO_256 ==>
                  && (o.Success? <==> exact < 1_000_000_000_000_000_000 || CanPay(s, account, token, exact / 1_000_000_000_000_000_000))
                  && (!o.Success? ==> o == Failure(TokenTransferFailed))
                  && (o.Success? ==>
                        o.value.payment == Some(Payment(account, token, cost, s.Price(token), exact / 1_000_000_000_000_000_000)))))
  {
  }

  // A transfer on behalf uses up that much of one allowance, and an approval sets one.
  lemma AllowancesFollow(l: Ledger, sender: Address, from: Address, to: Address, amount: Uint256, a: Address, b: Address)
    ensures var t := l.TransferFrom(sender, from, to, amount);
      && (t.Some? <==> l.Allowance(from, sender) >= amount && l.Balance(from) >= amount
                       && (from == to || l.Balance(to) + amount < TWO_256))
      && (t.Some? ==> t.value.Allowance(a, b) == l.Allowance(a, b) - if a == from && b == sender then amount else 0)
    ensures l.Approve(from, sender, amount).Allowance(a, b)
            == if a == from && b == sender then amount else l.Allowance(a, b)
  {
  }

  // The owner, and nobody else, sets prices and sponsorship, one entry at a time.
  lemma OwnerSetsEntries(s: State, sender: Address, a: Action, x: Address)
    requires a.SetTokenGasPrice? || a.SetSponsoredAccount?
    ensures var o := Act(s, sender, a);
      && (o.Success? <==> sender == s.owner) && (!o.Success? ==> o == Failure(OnlyOwner))
      && (o.Success? ==>
            var t := o.value.st;
            && t.Price(x) == (if a.SetTokenGasPrice? && a.token == x then a.pricePerGas else s.Price(x))
            && (x in t.sponsoredAccounts
                <==> if a.SetSponsoredAccount? && a.account == x then a.sponsored else x in s.sponsoredAccounts)
            && t.owner == s.owner && t.entryPoint == s.entryPoint && t.ledgers == s.ledgers)
  {
  }

  /** The token an operation names in paymasterAndData is the one it is charged in, whatever
      bytes follow; it is admitted exactly when the token has a price. */
  lemma TokenModeNamesItsToken(s: State, account: Address, token: Address, rest: Bytes, maxCost: Uint256)
    ensures var data := BigEndian(s.self, 20) + [2] + BigEndian(token, 20) + rest;
      Validate(s, s.entryPoint, account, data, maxCost)
      == if s.Price(token) != 0 then Success(Some(Context(account, token, maxCost))) else Failure(TokenNotAllowed)
  {
    var data := BigEndian(s.self, 20) + [2] + BigEndian(token, 20) + rest;
    assert data[20] == 2 && data[21..41] == BigEndian(token, 20);
    Pow256Values();
    ValueOfBigEndian(token, 20);
  }

  function BalanceOf(s: State, token: Address, holder: Address): Uint256 {
    if token in s.ledgers then s.ledgers[token].Balance(holder) else 0
  }

  /** A reported collection pays the paymaster exactly when a token contract exists at the configured address and
      the account charged is not the paymaster itself. Then the account pays the amount and nobody else's
      balance changes; otherwise no balance of any token changes. */
  lemma CollectionPaysThePaymaster(s: State, sender: Address, context: Option<Context>, cost: Uint256,
                                   token: Address, holder: Address)
    requires Settle(s, sender, context, cost).Success?
    requires var p := Settle(s, sender, context, cost).value.payment; p.Some? && p.value.amount > 0
    ensures var done := Settle(s, sender, context, cost).value;
      var (after, p) := (done.st, done.payment.value);
      && (BalanceOf(after, p.token, s.self) == BalanceOf(s, p.token, s.self) + p.amount
          <==> p.token in s.ledgers && p.account != s.self)
      && BalanceOf(after, token, holder) - BalanceOf(s, token, holder) ==
           if token != p.token || token !in s.ledgers || p.account == s.self then 0
           else if holder == s.self then p.amount
           else if holder == p.account then 0 - p.amount
           else 0
  {
    var done := Settle(s, sender, context, cost).value;
    var p := done.payment.value;
    if p.token in s.ledgers {
      TransferBooks(s.ledgers[p.token], s.self, p.account, s.self, p.amount, s.self);
      TransferBooks(s.ledgers[p.token], s.self, p.account, s.self, p.amount, holder);
    }
    hide Ledger.TransferFrom;
  }

  // A paymaster at address 30, of owner 7 and entry point 8, in a world without tokens.
  function NoTokens(): State {
    State(30, 7, 8, {}, map[], map[])
  }

  /** A run in which address 40, which holds no code, is priced, an operation of account 5 is admitted, and
      its settlement reports 100 units collected: nothing was. */
  lemma CodelessTokenReportsPayment()
    ensures var context := Some(Context(5, 40, 1000));
      var (priced, _) := Run(NoTokens(), [(7, SetTokenGasPrice(40, 1_000_000_000_000_000_000))]);
      && Validate(priced, 8, 5, BigEndian(30, 20) + [2] + BigEndian(40, 20) + [], 1000) == Success(context)
      && var (end, journal) := Run(priced, [(8, PostOp(context, 100))]);
         && journal == [Paid(Payment(5, 40, 100, 1_000_000_000_000_000_000, 100))]
         && end.ledgers == map[]
  {
    var context := Some(Context(5, 40, 1000));
    var first := (7, SetTokenGasPrice(40, 1_000_000_000_000_000_000));
    var priced := NoTokens().(tokenGasPrice := map[40 := 1_000_000_000_000_000_000]);
    OneCall(NoTokens(), first);
    assert Act(NoTokens(), 7, first.1) == Success(Done(priced, Nothing));
    TokenModeNamesItsToken(priced, 5, 40, [], 1000);
    OneCall(priced, (8, PostOp(context, 100)));
    hide Run;
  }

  lemma OneCall(s: State, call: (Address, Action))
    ensures Run(s, [call]) ==
      match Act(s, call.0, call.1)
      case Failure(_) => (s, [])
      case Success(done) => (done.st, [done.entry])
  {
    var o := Act(s, call.0, call.1);
    hide Act;
    assert [call][1..] == [];
    if o.Success? {
      assert Run(o.value.st, [call][1..]) == (o.value.st, []);
      assert [o.value.entry] + [] == [o.value.entry];
    }
  }
}
