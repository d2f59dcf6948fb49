/**
 * The on-chain escrow program (programs/botbond/src/lib.rs) over a ledger of token accounts.
 * Every instruction is one atomic transaction: it either succeeds or leaves the ledger as it was.
 */
module BondProgram {
  import opened Wrappers
  import opened Primitives
  import opened Sums
  import opened Checks

  const GRACE_PERIOD_SECONDS := 30

  datatype Status = OPEN | CLOSED | VIOLATED | RECLAIMED

  datatype Bond = Bond(
    agent: Key, merchant: Key, authority: Key, mint: Key,
    policyHash: Hash, receiptHash: Hash,
    bondAmount: u64, maxPenalty: u64, settledPenalty: u64,
    expiresAt: i64, nonce: u64, status: Status)

  datatype Account = Account(owner: Key, mint: Key, amount: u64)

  datatype Chain = Chain(bonds: map<Key, Bond>, accounts: map<Key, Account>)

  datatype Error =
    | ZERO_BOND | MAX_PENALTY_EXCEEDS_BOND | EXPIRY_IN_PAST | PENALTY_EXCEEDS_MAX | ALREADY_SETTLED
    | UNAUTHORIZED | NOT_YET_RECLAIMABLE | INVALID_DESTINATION
    | MISSING_SIGNATURE | ACCOUNT_CONSTRAINT | INSUFFICIENT_FUNDS | ARITHMETIC_OVERFLOW

  /** The four instructions of the program, and what anybody can do with token accounts. */
  datatype Instruction =
    | OpenBond(agent: Key, merchant: Key, authority: Key, mint: Key, agentToken: Key, policyHash: Hash,
               nonce: u64, bondAmount: u64, maxPenalty: u64, expiresAt: i64, now: i64)
    | CloseValid(signer: Key, bond: Key, agentToken: Key, receiptHash: Hash)
    | SettleViolation(signer: Key, bond: Key, agentToken: Key, merchantToken: Key, receiptHash: Hash, penalty: u64)
    | ReclaimExpired(signer: Key, bond: Key, agentToken: Key, now: i64)
    | TokenTransfer(signer: Key, from: Key, to: Key, amount: u64)
    | CreateAccount(account: Key, owner: Key, mint: Key)
    | SetOwner(signer: Key, account: Key, newOwner: Key)

  function Escrow(bond: Key, b: Bond): Key {
    Ata(bond, b.mint)
  }

  // ---------------------------------------------------------------------------------
  // What an instruction does
  // ---------------------------------------------------------------------------------

  /** A token transfer. Sending to the same account checks the balance and changes nothing. */
  function Transfer(accounts: map<Key, Account>, from: Key, to: Key, amount: u64): Result<map<Key, Account>, Error> {
    if from !in accounts || to !in accounts || accounts[from].mint != accounts[to].mint then Err(ACCOUNT_CONSTRAINT)
    else if accounts[from].amount < amount then Err(INSUFFICIENT_FUNDS)
    else if from == to then Ok(accounts)
    else if accounts[to].amount + amount > U64_MAX then Err(ARITHMETIC_OVERFLOW)
    else
      Ok(accounts[from := accounts[from].(amount := accounts[from].amount - amount)]
                 [to := accounts[to].(amount := accounts[to].amount + amount)])
  }

  /** `token::mint = mint` and `constraint = account.owner == owner` */
  predicate Holds(c: Chain, account: Key, owner: Key, mint: Key) {
    account in c.accounts && c.accounts[account].owner == owner && c.accounts[account].mint == mint
  }

  /** Account constraints shared by the three exits: the escrow is the session's own associated
      token account and the refund goes to an account of the agent. */
  predicate ExitAccounts(c: Chain, bond: Key, agentToken: Key) {
    && bond in c.bonds
    && var b := c.bonds[bond];
       Holds(c, Escrow(bond, b), bond, b.mint) && agentToken in c.accounts && c.accounts[agentToken].mint == b.mint
  }

  function Execute(c: Chain, i: Instruction): Result<Chain, Error> {
    match i
    case OpenBond(_, _, _, _, _, _, _, _, _, _, _) => ExecuteOpen(c, i)
    case CloseValid(signer, bond, agentToken, receiptHash) =>
      if !signer.Wallet? then Err(MISSING_SIGNATURE)
      else if !ExitAccounts(c, bond, agentToken) then Err(ACCOUNT_CONSTRAINT)
      else
        var b := c.bonds[bond];
        if b.authority != signer then Err(UNAUTHORIZED)
        else if c.accounts[agentToken].owner != b.agent then Err(INVALID_DESTINATION)
        else if b.status != OPEN then Err(ALREADY_SETTLED)
        else
          (match Transfer(c.accounts, Escrow(bond, b), agentToken, c.accounts[Escrow(bond, b)].amount)
           case Err(e) => Err(e)
           case Ok(accounts) => Ok(Chain(c.bonds[bond := b.(receiptHash := receiptHash, status := CLOSED)], accounts)))
    case SettleViolation(_, _, _, _, _, _) => ExecuteSettle(c, i)
    case ReclaimExpired(signer, bond, agentToken, now) =>
      if !signer.Wallet? then Err(MISSING_SIGNATURE)
      else if !ExitAccounts(c, bond, agentToken) then Err(ACCOUNT_CONSTRAINT)
      else
        var b := c.bonds[bond];
        if b.agent != signer then Err(UNAUTHORIZED)
        else if c.accounts[agentToken].owner != b.agent then Err(INVALID_DESTINATION)
        else if b.status != OPEN then Err(ALREADY_SETTLED)
        else if b.expiresAt + GRACE_PERIOD_SECONDS > I64_MAX then Err(ARITHMETIC_OVERFLOW)
        else if now <= b.expiresAt + GRACE_PERIOD_SECONDS then Err(NOT_YET_RECLAIMABLE)
        else
          (match Transfer(c.accounts, Escrow(bond, b), agentToken, c.accounts[Escrow(bond, b)].amount)
           case Err(e) => Err(e)
           case Ok(accounts) => Ok(Chain(c.bonds[bond := b.(status := RECLAIMED)], accounts)))
    case TokenTransfer(signer, from, to, amount) =>
      if !signer.Wallet? then Err(MISSING_SIGNATURE)
      else if from !in c.accounts || c.accounts[from].owner != signer then Err(UNAUTHORIZED)
      else
        (match Transfer(c.accounts, from, to, amount)
         case Err(e) => Err(e)
         case Ok(accounts) => Ok(c.(accounts := accounts)))
    case CreateAccount(account, owner, mint) =>
      if account in c.accounts || account.BondPda? || (account.Ata? && account != Ata(owner, mint)) then Err(ACCOUNT_CONSTRAINT)
      else Ok(c.(accounts := c.accounts[account := Account(owner, mint, 0)]))
    case SetOwner(signer, account, newOwner) =>
      if !signer.Wallet? then Err(MISSING_SIGNATURE)
      else if account !in c.accounts || c.accounts[account].owner != signer then Err(UNAUTHORIZED)
      else Ok(c.(accounts := c.accounts[account := c.accounts[account].(owner := newOwner)]))
  }

  function ExecuteOpen(c: Chain, i: Instruction): Result<Chain, Error>
    requires i.OpenBond?
  {
    var bond := BondPda(i.agent, i.policyHash, i.nonce);
    var escrow := Ata(bond, i.mint);
    if !i.agent.Wallet? then Err(MISSING_SIGNATURE)
    else if bond in c.bonds || escrow in c.accounts || !Holds(c, i.agentToken, i.agent, i.mint) then Err(ACCOUNT_CONSTRAINT)
    else if i.bondAmount == 0 then Err(ZERO_BOND)
    else if i.maxPenalty > i.bondAmount then Err(MAX_PENALTY_EXCEEDS_BOND)
    else if i.expiresAt <= i.now then Err(EXPIRY_IN_PAST)
    else
      match Transfer(c.accounts[escrow := Account(bond, i.mint, 0)], i.agentToken, escrow, i.bondAmount)
      case Err(e) => Err(e)
      case Ok(accounts) =>
        var b := Bond(i.agent, i.merchant, i.authority, i.mint, i.policyHash, ZERO_HASH,
                      i.bondAmount, i.maxPenalty, 0, i.expiresAt, i.nonce, OPEN);
        Ok(Chain(c.bonds[bond := b], accounts))
  }

  function ExecuteSettle(c: Chain, i: Instruction): Result<Chain, Error>
    requires i.SettleViolation?
  {
    if !i.signer.Wallet? then Err(MISSING_SIGNATURE)
    else if !ExitAccounts(c, i.bond, i.agentToken) || i.merchantToken !in c.accounts
            || c.accounts[i.merchantToken].mint != c.bonds[i.bond].mint then Err(ACCOUNT_CONSTRAINT)
    else
      var b := c.bonds[i.bond];
      var escrow := Escrow(i.bond, b);
      if b.authority != i.signer then Err(UNAUTHORIZED)
      else if c.accounts[i.agentToken].owner != b.agent || c.accounts[i.merchantToken].owner != b.merchant then Err(INVALID_DESTINATION)
      else if b.status != OPEN then Err(ALREADY_SETTLED)
      else if i.penalty > b.maxPenalty then Err(PENALTY_EXCEEDS_MAX)
      else if c.accounts[escrow].amount < i.penalty then Err(PENALTY_EXCEEDS_MAX)
      else
        match PayOut(c.accounts, escrow, i.merchantToken, i.agentToken, i.penalty)
        case Err(e) => Err(e)
        case Ok(accounts) =>
          Ok(Chain(c.bonds[i.bond := b.(receiptHash := i.receiptHash, settledPenalty := i.penalty, status := VIOLATED)], accounts))
  }

  /** The penalty to the merchant, then what the escrow held beyond it to the agent. */
  function PayOut(accounts: map<Key, Account>, escrow: Key, merchantToken: Key, agentToken: Key, penalty: u64): Result<map<Key, Account>, Error>
    requires escrow in accounts && penalty <= accounts[escrow].amount
  {
    match Transfer(accounts, escrow, merchantToken, penalty)
    case Err(e) => Err(e)
    case Ok(paid) => Transfer(paid, escrow, agentToken, accounts[escrow].amount - penalty)
  }

  /** A failed transaction leaves no trace. */
  function Apply(c: Chain, i: Instruction): Chain {
    match Execute(c, i)
    case Ok(c') => c'
    case Err(_) => c
  }

  function Run(c: Chain, instructions: seq<Instruction>): Chain
    decreases |instructions|
  {
    if instructions == [] then c else Run(Apply(c, instructions[0]), instructions[1..])
  }

  // ---------------------------------------------------------------------------------
  // Token totals
  // ---------------------------------------------------------------------------------

  function Share(a: Account, mint: Key): nat {
    if a.mint == mint then a.amount else 0
  }

  ghost function Shares(accounts: map<Key, Account>, mint: Key): map<Key, nat> {
    map k | k in accounts :: Share(accounts[k], mint)
  }

  /** All tokens of a mint. */
  ghost function Total(accounts: map<Key, Account>, mint: Key): nat {
    Sum(Shares(accounts, mint))
  }

  lemma TotalUpdate(accounts: map<Key, Account>, mint: Key, k: Key, a: Account)
    ensures Total(accounts[k := a], mint) ==
            Total(accounts, mint) + Share(a, mint) - (if k in accounts then Share(accounts[k], mint) else 0)
  {
    SumUpdate(Shares(accounts, mint), k, Share(a, mint));
    assert Shares(accounts[k := a], mint) == Shares(accounts, mint)[k := Share(a, mint)];
  }

  lemma TwoAccounts(accounts: map<Key, Account>, mint: Key, j: Key, k: Key)
    requires j in accounts && k in accounts && j != k && accounts[j].mint == mint == accounts[k].mint
    ensures accounts[j].amount + accounts[k].amount <= Total(accounts, mint)
  {
    SumPick(Shares(accounts, mint), j);
    SumPick(Shares(accounts, mint) - {j}, k);
  }

  lemma TransferConserves(accounts: map<Key, Account>, from: Key, to: Key, amount: u64, mint: Key)
    requires Transfer(accounts, from, to, amount).Ok?
    ensures Total(Transfer(accounts, from, to, amount).value, mint) == Total(accounts, mint)
  {
    if from != to {
      var paid := accounts[from].(amount := accounts[from].amount - amount);
      TotalUpdate(accounts, mint, from, paid);
      TotalUpdate(accounts[from := paid], mint, to, accounts[to].(amount := accounts[to].amount + amount));
    }
  }

  lemma TransferOfNothing(accounts: map<Key, Account>, from: Key, to: Key)
    requires from in accounts && to in accounts && accounts[from].mint == accounts[to].mint
    ensures Transfer(accounts, from, to, 0) == Ok(accounts)
  {
    var same := accounts[from := accounts[from]][to := accounts[to]];
    assert same == accounts;
  }

  /** No instruction creates or destroys tokens. */
  lemma ExecuteConserves(c: Chain, i: Instruction, mint: Key)
    ensures Total(Apply(c, i).accounts, mint) == Total(c.accounts, mint)
  {
    if Execute(c, i).Ok? {
      match i {
        case OpenBond(agent, _, _, m, agentToken, policyHash, nonce, bondAmount, _, _, _) =>
          var bond := BondPda(agent, policyHash, nonce);
          TotalUpdate(c.accounts, mint, Ata(bond, m), Account(bond, m, 0));
          TransferConserves(c.accounts[Ata(bond, m) := Account(bond, m, 0)], agentToken, Ata(bond, m), bondAmount, mint);
        case CloseValid(_, bond, agentToken, _) =>
          var escrow := Escrow(bond, c.bonds[bond]);
          TransferConserves(c.accounts, escrow, agentToken, c.accounts[escrow].amount, mint);
        case SettleViolation(_, bond, agentToken, merchantToken, _, penalty) =>
          var escrow := Escrow(bond, c.bonds[bond]);
          TransferConserves(c.accounts, escrow, merchantToken, penalty, mint);
          TransferConserves(Transfer(c.accounts, escrow, merchantToken, penalty).value, escrow, agentToken, c.accounts[escrow].amount - penalty, mint);
        case ReclaimExpired(_, bond, agentToken, _) =>
          var escrow := Escrow(bond, c.bonds[bond]);
          TransferConserves(c.accounts, escrow, agentToken, c.accounts[escrow].amount, mint);
        case TokenTransfer(_, from, to, amount) =>
          TransferConserves(c.accounts, from, to, amount, mint);
        case CreateAccount(account, owner, m) =>
          TotalUpdate(c.accounts, mint, account, Account(owner, m, 0));
        case SetOwner(_, account, newOwner) =>
          TotalUpdate(c.accounts, mint, account, c.accounts[account].(owner := newOwner));
      }
    }
  }

  // ---------------------------------------------------------------------------------
  // The invariant of every reachable ledger
  // ---------------------------------------------------------------------------------

  ghost predicate GoodBond(c: Chain, k: Key)
    requires k in c.bonds
  {
    var b := c.bonds[k];
    && b.agent.Wallet? && k == BondPda(b.agent, b.policyHash, b.nonce)
    && 0 < b.bondAmount && b.settledPenalty <= b.maxPenalty <= b.bondAmount
    && (b.status != VIOLATED ==> b.settledPenalty == 0)
    && Holds(c, Escrow(k, b), k, b.mint)
    && (b.status == OPEN ==> c.accounts[Escrow(k, b)].amount >= b.bondAmount)
  }

  /** The supply of a mint fits in a u64, as the token program guarantees. */
  ghost predicate Good(c: Chain) {
    && (forall k | k in c.bonds :: GoodBond(c, k))
    && (forall mint :: Total(c.accounts, mint) <= U64_MAX)
  }

  /** What no instruction can undo: terms are fixed at opening and an exit is final. */
  ghost predicate Extends(c: Chain, d: Chain) {
    forall k | k in c.bonds ::
      && k in d.bonds
      && (c.bonds[k].status != OPEN ==> d.bonds[k] == c.bonds[k])
      && SameTerms(c.bonds[k], d.bonds[k])
  }

  predicate SameTerms(a: Bond, b: Bond) {
    && a.agent == b.agent && a.merchant == b.merchant && a.authority == b.authority && a.mint == b.mint
    && a.policyHash == b.policyHash && a.bondAmount == b.bondAmount && a.maxPenalty == b.maxPenalty
    && a.expiresAt == b.expiresAt && a.nonce == b.nonce
  }

  lemma ExecuteExtends(c: Chain, i: Instruction)
    ensures Extends(c, Apply(c, i))
  {}

  /** A bond that is there stays good: nobody else can take from its escrow. */
  lemma BondKept(c: Chain, i: Instruction, k: Key)
    requires Execute(c, i).Ok? && k in c.bonds && GoodBond(c, k)
    ensures GoodBond(Execute(c, i).value, k)
  {
    match i {
      case SettleViolation(_, _, _, _, _, _) => SettleKeepsBond(c, i, k);
      case OpenBond(_, _, _, _, _, _, _, _, _, _, _) => OpenKeepsBond(c, i, k);
      case _ =>
    }
  }

  lemma SettleKeepsBond(c: Chain, i: Instruction, k: Key)
    requires i.SettleViolation? && Execute(c, i).Ok? && k in c.bonds && GoodBond(c, k)
    ensures GoodBond(Execute(c, i).value, k)
  {}

  lemma OpenKeepsBond(c: Chain, i: Instruction, k: Key)
    requires i.OpenBond? && Execute(c, i).Ok? && k in c.bonds && GoodBond(c, k)
    ensures GoodBond(Execute(c, i).value, k)
  {}

  lemma OpenedBondGood(c: Chain, i: Instruction)
    requires i.OpenBond? && Execute(c, i).Ok?
    ensures var bond := BondPda(i.agent, i.policyHash, i.nonce);
      Execute(c, i).value.bonds == c.bonds[bond := Execute(c, i).value.bonds[bond]] && GoodBond(Execute(c, i).value, bond)
  {}

  lemma OnlyOpenAdds(c: Chain, i: Instruction)
    requires !i.OpenBond?
    ensures Apply(c, i).bonds.Keys == c.bonds.Keys
  {
    hide Transfer, PayOut;
  }

  lemma ExecuteKeepsGood(c: Chain, i: Instruction)
    requires Good(c)
    ensures Good(Apply(c, i))
  {
    var d := Apply(c, i);
    forall mint ensures Total(d.accounts, mint) <= U64_MAX {
      ExecuteConserves(c, i, mint);
    }
    if i.OpenBond? && Execute(c, i).Ok? { OpenedBondGood(c, i); }
    if !i.OpenBond? { OnlyOpenAdds(c, i); }
    hide Execute, Total;
    forall k | k in d.bonds ensures GoodBond(d, k) {
      if k in c.bonds && Execute(c, i).Ok? { BondKept(c, i, k); }
    }
  }

  /** Only the recorded authority can close a bond or settle it as violated. */
  lemma OnlyAuthoritySettles(c: Chain, i: Instruction, k: Key)
    requires k in Apply(c, i).bonds && Apply(c, i).bonds[k].status in {CLOSED, VIOLATED}
    ensures k in c.bonds
    ensures Apply(c, i).bonds[k] == c.bonds[k] || ((i.CloseValid? || i.SettleViolation?) && i.signer == c.bonds[k].authority)
  {
    hide Transfer, PayOut;
  }

  /** Over every run: the ledger stays good, tokens are conserved, terms never change and
      whatever exit a bond has taken is final. */
  lemma {:induction false} RunIsSafe(c: Chain, instructions: seq<Instruction>)
    requires Good(c)
    ensures Good(Run(c, instructions))
    ensures Extends(c, Run(c, instructions))
    ensures forall mint :: Total(Run(c, instructions).accounts, mint) == Total(c.accounts, mint)
    decreases |instructions|
  {
    if instructions != [] {
      var d := Apply(c, instructions[0]);
      ExecuteKeepsGood(c, instructions[0]);
      ExecuteExtends(c, instructions[0]);
      forall mint ensures Total(d.accounts, mint) == Total(c.accounts, mint) {
        ExecuteConserves(c, instructions[0], mint);
      }
      RunIsSafe(d, instructions[1..]);
    }
  }

  // ---------------------------------------------------------------------------------
  // What the exits pay, and exactly when they are enabled
  // ---------------------------------------------------------------------------------

  lemma TransferEnabled(c: Chain, from: Key, to: Key, amount: u64)
    requires forall mint :: Total(c.accounts, mint) <= U64_MAX
    requires from in c.accounts && to in c.accounts && c.accounts[from].mint == c.accounts[to].mint
    requires amount <= c.accounts[from].amount
    ensures Transfer(c.accounts, from, to, amount).Ok?
  {
    if from != to { TwoAccounts(c.accounts, c.accounts[from].mint, from, to); }
  }

  predicate RefundAccount(c: Chain, bond: Key, agentToken: Key)
    requires bond in c.bonds
  {
    Holds(c, agentToken, c.bonds[bond].agent, c.bonds[bond].mint)
  }

  /** Tokens moved among these accounts and no others; owners and mints stay. */
  ghost predicate OnlyMoved(c: Chain, d: Chain, moved: set<Key>) {
    && d.accounts.Keys == c.accounts.Keys
    && forall k | k in c.accounts :: d.accounts[k] == c.accounts[k].(amount := if k in moved then d.accounts[k].amount else c.accounts[k].amount)
  }

  /** A bond opens exactly when the agent signs, the session and its escrow are new, the terms
      make sense and the agent's account covers the amount; the escrow then holds exactly the
      bond, taken from the agent, and nothing else changes. */
  lemma OpenBondExact(c: Chain, i: Instruction)
    requires Good(c) && i.OpenBond?
    ensures var r, bond := Execute(c, i), BondPda(i.agent, i.policyHash, i.nonce);
      var escrow := Ata(bond, i.mint);
      && (r.Ok? <==>
          && i.agent.Wallet? && bond !in c.bonds && escrow !in c.accounts && Holds(c, i.agentToken, i.agent, i.mint)
          && 0 < i.bondAmount <= c.accounts[i.agentToken].amount && i.maxPenalty <= i.bondAmount && i.now < i.expiresAt)
      && (r.Ok? ==>
          && r.value.bonds.Keys == c.bonds.Keys + {bond} && (forall k | k in c.bonds :: r.value.bonds[k] == c.bonds[k])
          && r.value.bonds[bond] == Bond(i.agent, i.merchant, i.authority, i.mint, i.policyHash, ZERO_HASH,
                                         i.bondAmount, i.maxPenalty, 0, i.expiresAt, i.nonce, OPEN)
          && r.value.accounts.Keys == c.accounts.Keys + {escrow}
          && r.value.accounts[escrow] == Account(bond, i.mint, i.bondAmount)
          && r.value.accounts[i.agentToken] == c.accounts[i.agentToken].(amount := c.accounts[i.agentToken].amount - i.bondAmount)
          && (forall k | k in c.accounts && k != i.agentToken :: r.value.accounts[k] == c.accounts[k]))
  {
    var escrow := Ata(BondPda(i.agent, i.policyHash, i.nonce), i.mint);
    assert escrow !in c.accounts && i.agentToken in c.accounts ==> i.agentToken != escrow;
  }

  /** A valid close succeeds exactly for the recorded authority on an open bond; it hands the
      whole escrow, at least the bond, to the agent and empties the escrow. */
  lemma CloseValidExact(c: Chain, signer: Key, bond: Key, agentToken: Key, receiptHash: Hash)
    requires Good(c)
    ensures var r := Execute(c, CloseValid(signer, bond, agentToken, receiptHash));
      && (r.Ok? <==>
          && signer.Wallet? && bond in c.bonds && c.bonds[bond].authority == signer
          && RefundAccount(c, bond, agentToken) && c.bonds[bond].status == OPEN)
      && (r.Ok? ==>
          var b, escrow, d := c.bonds[bond], Escrow(bond, c.bonds[bond]), r.value;
          && d.bonds == c.bonds[bond := b.(status := CLOSED, receiptHash := receiptHash)]
          && escrow != agentToken && d.accounts[escrow].amount == 0 && OnlyMoved(c, d, {escrow, agentToken})
          && d.accounts[agentToken].amount - c.accounts[agentToken].amount == c.accounts[escrow].amount >= b.bondAmount)
  {
    if bond in c.bonds {
      assert GoodBond(c, bond);
      if RefundAccount(c, bond, agentToken) {
        TransferEnabled(c, Escrow(bond, c.bonds[bond]), agentToken, c.accounts[Escrow(bond, c.bonds[bond])].amount);
      }
    }
  }

  /** A violation settles exactly when the recorded authority asks for a penalty within the
      signed ceiling on an open bond; the escrow always covers the penalty. */
  lemma SettleViolationEnabled(c: Chain, i: Instruction)
    requires Good(c) && i.SettleViolation?
    ensures Execute(c, i).Ok? <==>
            && i.signer.Wallet? && i.bond in c.bonds && c.bonds[i.bond].authority == i.signer
            && RefundAccount(c, i.bond, i.agentToken)
            && Holds(c, i.merchantToken, c.bonds[i.bond].merchant, c.bonds[i.bond].mint)
            && c.bonds[i.bond].status == OPEN && i.penalty <= c.bonds[i.bond].maxPenalty
    ensures i.bond in c.bonds && c.bonds[i.bond].status == OPEN && i.penalty <= c.bonds[i.bond].maxPenalty ==>
            c.accounts[Escrow(i.bond, c.bonds[i.bond])].amount >= i.penalty && Execute(c, i) != Err(PENALTY_EXCEEDS_MAX)
  {
    if i.bond in c.bonds {
      assert GoodBond(c, i.bond);
      var b := c.bonds[i.bond];
      var escrow := Escrow(i.bond, b);
      if b.status == OPEN && i.penalty <= b.maxPenalty && RefundAccount(c, i.bond, i.agentToken) && Holds(c, i.merchantToken, b.merchant, b.mint) {
        TransferEnabled(c, escrow, i.merchantToken, i.penalty);
        var paid := c.(accounts := Transfer(c.accounts, escrow, i.merchantToken, i.penalty).value);
        forall mint ensures Total(paid.accounts, mint) <= U64_MAX {
          TransferConserves(c.accounts, escrow, i.merchantToken, i.penalty, mint);
        }
        TransferEnabled(paid, escrow, i.agentToken, c.accounts[escrow].amount - i.penalty);
      }
    }
  }

  /** A settled violation pays the merchant exactly the penalty, at most the ceiling; the agent
      gets the rest of the escrow, at least bond minus ceiling. The escrow ends up empty unless
      the merchant's account is the escrow itself, which then keeps the penalty. */
  lemma SettleViolationPays(c: Chain, i: Instruction)
    requires Good(c) && i.SettleViolation? && Execute(c, i).Ok?
    ensures var b, escrow, d := c.bonds[i.bond], Escrow(i.bond, c.bonds[i.bond]), Apply(c, i);
      && d.bonds == c.bonds[i.bond := b.(status := VIOLATED, receiptHash := i.receiptHash, settledPenalty := i.penalty)]
      && i.penalty <= b.maxPenalty && i.agentToken != escrow
      && (i.merchantToken != escrow && i.merchantToken != i.agentToken ==>
          d.accounts[i.merchantToken].amount - c.accounts[i.merchantToken].amount == i.penalty)
      && (i.merchantToken != i.agentToken ==>
          d.accounts[i.agentToken].amount - c.accounts[i.agentToken].amount == c.accounts[escrow].amount - i.penalty)
      && d.accounts[i.agentToken].amount - c.accounts[i.agentToken].amount >= b.bondAmount - b.maxPenalty
      && d.accounts[escrow].amount == (if i.merchantToken == escrow then i.penalty else 0)
      && OnlyMoved(c, d, {escrow, i.agentToken, i.merchantToken})
  {
    assert GoodBond(c, i.bond);
  }

  /** The agent can take an open bond back exactly when the clock has passed expiry plus grace,
      and never when that sum leaves the 64-bit range; the whole escrow is returned. */
  lemma ReclaimExact(c: Chain, signer: Key, bond: Key, agentToken: Key, now: i64)
    requires Good(c)
    ensures var r := Execute(c, ReclaimExpired(signer, bond, agentToken, now));
      && (r.Ok? <==>
          && signer.Wallet? && bond in c.bonds && c.bonds[bond].agent == signer
          && RefundAccount(c, bond, agentToken) && c.bonds[bond].status == OPEN
          && c.bonds[bond].expiresAt + 30 <= I64_MAX && now > c.bonds[bond].expiresAt + 30)
      && (r.Ok? ==>
          var b, escrow, d := c.bonds[bond], Escrow(bond, c.bonds[bond]), r.value;
          && d.bonds == c.bonds[bond := b.(status := RECLAIMED)]
          && escrow != agentToken && d.accounts[escrow].amount == 0 && OnlyMoved(c, d, {escrow, agentToken})
          && d.accounts[agentToken].amount - c.accounts[agentToken].amount == c.accounts[escrow].amount >= b.bondAmount)
  {
    if bond in c.bonds {
      assert GoodBond(c, bond);
      if RefundAccount(c, bond, agentToken) {
        TransferEnabled(c, Escrow(bond, c.bonds[bond]), agentToken, c.accounts[Escrow(bond, c.bonds[bond])].amount);
      }
    }
  }

  // ---------------------------------------------------------------------------------
  // What is reported when an instruction fails
  // ---------------------------------------------------------------------------------

  predicate IsExit(i: Instruction) {
    i.CloseValid? || i.SettleViolation? || i.ReclaimExpired?
  }

  /** The bond exists and the token accounts are of its mint. */
  predicate Accounts(c: Chain, i: Instruction)
    requires IsExit(i)
  {
    && i.bond in c.bonds && i.agentToken in c.accounts && c.accounts[i.agentToken].mint == c.bonds[i.bond].mint
    && (i.SettleViolation? ==> i.merchantToken in c.accounts && c.accounts[i.merchantToken].mint == c.bonds[i.bond].mint)
  }

  predicate OwnDestinations(c: Chain, i: Instruction)
    requires IsExit(i) && Accounts(c, i)
  {
    && c.accounts[i.agentToken].owner == c.bonds[i.bond].agent
    && (i.SettleViolation? ==> c.accounts[i.merchantToken].owner == c.bonds[i.bond].merchant)
  }

  /** Who may take the exit, where the tokens may go, and when. */
  function ExitChecks(c: Chain, i: Instruction): seq<Check<Error>>
    requires IsExit(i)
  {
    var known := Accounts(c, i);
    [ Check(!i.signer.Wallet?, MISSING_SIGNATURE),
      Check(!known, ACCOUNT_CONSTRAINT),
      Check(known && i.signer != (if i.ReclaimExpired? then c.bonds[i.bond].agent else c.bonds[i.bond].authority), UNAUTHORIZED),
      Check(known && !OwnDestinations(c, i), INVALID_DESTINATION),
      Check(known && c.bonds[i.bond].status != OPEN, ALREADY_SETTLED),
      Check(known && i.SettleViolation? && i.penalty > c.bonds[i.bond].maxPenalty, PENALTY_EXCEEDS_MAX),
      Check(known && i.ReclaimExpired? && c.bonds[i.bond].expiresAt + 30 > I64_MAX, ARITHMETIC_OVERFLOW),
      Check(known && i.ReclaimExpired? && i.now <= c.bonds[i.bond].expiresAt + 30, NOT_YET_RECLAIMABLE) ]
  }

  function ErrorOf(r: Result<Chain, Error>): Option<Error> {
    match r case Ok(_) => None case Err(e) => Some(e)
  }

  predicate MayExit(c: Chain, i: Instruction)
    requires IsExit(i)
  {
    && i.signer.Wallet? && Accounts(c, i) && i.signer == (if i.ReclaimExpired? then c.bonds[i.bond].agent else c.bonds[i.bond].authority)
    && OwnDestinations(c, i) && c.bonds[i.bond].status == OPEN
    && (i.SettleViolation? ==> i.penalty <= c.bonds[i.bond].maxPenalty)
    && (i.ReclaimExpired? ==> c.bonds[i.bond].expiresAt + 30 <= I64_MAX && c.bonds[i.bond].expiresAt + 30 < i.now)
  }

  lemma ExitsEnabled(c: Chain, i: Instruction)
    requires Good(c) && IsExit(i)
    ensures Execute(c, i).Ok? <==> MayExit(c, i)
  {
    match i {
      case CloseValid(signer, bond, agentToken, receiptHash) => CloseValidExact(c, signer, bond, agentToken, receiptHash);
      case SettleViolation(_, _, _, _, _, _) => SettleViolationEnabled(c, i);
      case ReclaimExpired(signer, bond, agentToken, now) => ReclaimExact(c, signer, bond, agentToken, now);
    }
    hide Execute, Good;
  }

  lemma MayExitUnlessCheckFails(c: Chain, i: Instruction)
    requires IsExit(i)
    ensures MayExit(c, i) <==> forall k | 0 <= k < 8 :: !ExitChecks(c, i)[k].fails
  {
    var checks := ExitChecks(c, i);
    assert !MayExit(c, i) ==> checks[0].fails || checks[1].fails || checks[2].fails || checks[3].fails || checks[4].fails
                              || checks[5].fails || checks[6].fails || checks[7].fails;
  }

  lemma ExitFails(c: Chain, i: Instruction, k: nat)
    requires Good(c) && IsExit(i) && k < 8
    requires ExitChecks(c, i)[k].fails && forall j | 0 <= j < k :: !ExitChecks(c, i)[j].fails
    ensures Execute(c, i) == Err(ExitChecks(c, i)[k].code)
  {
    if i.bond in c.bonds { assert GoodBond(c, i.bond); }
    var checks := ExitChecks(c, i);
    assert k > 0 ==> !checks[0].fails;
    assert k > 1 ==> !checks[1].fails;
    assert k > 2 ==> !checks[2].fails;
    assert k > 3 ==> !checks[3].fails;
    assert k > 4 ==> !checks[4].fails;
    assert k > 6 ==> !checks[6].fails;
    hide Transfer, PayOut;
  }

  /** An exit is taken exactly if it passes its checks, and the first that fails is reported. */
  lemma ExitReports(c: Chain, i: Instruction)
    requires Good(c) && IsExit(i)
    ensures IsFirst(ExitChecks(c, i), ErrorOf(Execute(c, i)))
  {
    ExitsEnabled(c, i);
    MayExitUnlessCheckFails(c, i);
    var checks := ExitChecks(c, i);
    if Execute(c, i).Err? {
      var k := FirstFailing(checks);
      ExitFails(c, i, k);
      FirstIs(checks, k);
    }
    hide Execute, ExitChecks, MayExit, Good;
  }

  function OpenChecks(c: Chain, i: Instruction): seq<Check<Error>>
    requires i.OpenBond?
  {
    var bond := BondPda(i.agent, i.policyHash, i.nonce);
    [ Check(!i.agent.Wallet?, MISSING_SIGNATURE),
      Check(bond in c.bonds || Ata(bond, i.mint) in c.accounts || !Holds(c, i.agentToken, i.agent, i.mint), ACCOUNT_CONSTRAINT),
      Check(i.bondAmount == 0, ZERO_BOND),
      Check(i.bondAmount < i.maxPenalty, MAX_PENALTY_EXCEEDS_BOND),
      Check(i.expiresAt <= i.now, EXPIRY_IN_PAST),
      Check(Holds(c, i.agentToken, i.agent, i.mint) && c.accounts[i.agentToken].amount < i.bondAmount, INSUFFICIENT_FUNDS) ]
  }

  /** So it is with opening a bond. */
  lemma OpenReports(c: Chain, i: Instruction)
    requires Good(c) && i.OpenBond?
    ensures IsFirst(OpenChecks(c, i), ErrorOf(Execute(c, i)))
  {
    OpenBondExact(c, i);
    var checks := OpenChecks(c, i);
    var escrow := Ata(BondPda(i.agent, i.policyHash, i.nonce), i.mint);
    assert escrow !in c.accounts && i.agentToken in c.accounts ==> i.agentToken != escrow;
    if checks[0].fails { FirstIs(checks, 0); }
    else if checks[1].fails { FirstIs(checks, 1); }
    else if checks[2].fails { FirstIs(checks, 2); }
    else if checks[3].fails { FirstIs(checks, 3); }
    else if checks[4].fails { FirstIs(checks, 4); }
    else if checks[5].fails { FirstIs(checks, 5); }
    hide Good;
  }

  // ---------------------------------------------------------------------------------
  // The program itself: accounts updated in place, rolled back on failure
  // ---------------------------------------------------------------------------------

  class Ledger {
    var bonds: map<Key, Bond>
    var accounts: map<Key, Account>

    ghost function State(): Chain
      reads this
    {
      Chain(bonds, accounts)
    }

    constructor (initial: map<Key, Account>)
      ensures State() == Chain(map[], initial)
    {
      bonds, accounts := map[], initial;
    }

    /** The token program's transfer, called by the bond program. */
    method MoveTokens(from: Key, to: Key, amount: u64) returns (error: Option<Error>)
      modifies this`accounts
      ensures error == None ==> Transfer(old(accounts), from, to, amount) == Ok(accounts)
      ensures error.Some? ==> Transfer(old(accounts), from, to, amount) == Err(error.value) && accounts == old(accounts)
    {
      if from !in accounts || to !in accounts || accounts[from].mint != accounts[to].mint {
        return Some(ACCOUNT_CONSTRAINT);
      }
      if accounts[from].amount < amount {
        return Some(INSUFFICIENT_FUNDS);
      }
      if from != to {
        if accounts[to].amount + amount > U64_MAX {
          return Some(ARITHMETIC_OVERFLOW);
        }
        accounts := accounts[from := accounts[from].(amount := accounts[from].amount - amount)];
        accounts := accounts[to := accounts[to].(amount := accounts[to].amount + amount)];
      }
      return None;
    }

    method OpenBond(agent: Key, merchant: Key, authority: Key, mint: Key, agentToken: Key, policyHash: Hash,
                    nonce: u64, bondAmount: u64, maxPenalty: u64, expiresAt: i64, now: i64)
      returns (error: Option<Error>)
      modifies this
      ensures var r := Execute(old(State()), Instruction.OpenBond(agent, merchant, authority, mint, agentToken, policyHash, nonce, bondAmount, maxPenalty, expiresAt, now));
        if error == None then r == Ok(State()) else r == Err(error.value) && State() == old(State())
    {
      var before := accounts;
      var session := BondPda(agent, policyHash, nonce);
      var escrow := Ata(session, mint);
      if !agent.Wallet? { return Some(MISSING_SIGNATURE); }
      if session in bonds || escrow in accounts || agentToken !in accounts
         || accounts[agentToken].owner != agent || accounts[agentToken].mint != mint {
        return Some(ACCOUNT_CONSTRAINT);
      }
      if bondAmount == 0 { return Some(ZERO_BOND); }
      if maxPenalty > bondAmount { return Some(MAX_PENALTY_EXCEEDS_BOND); }
      if expiresAt <= now { return Some(EXPIRY_IN_PAST); }
      accounts := accounts[escrow := Account(session, mint, 0)];
      error := MoveTokens(agentToken, escrow, bondAmount);
      if error.Some? {
        accounts := before;
        return;
      }
      bonds := bonds[session := Bond(agent, merchant, authority, mint, policyHash, ZERO_HASH, bondAmount, maxPenalty, 0, expiresAt, nonce, OPEN)];
    }

    method CloseValid(signer: Key, session: Key, agentToken: Key, receiptHash: Hash) returns (error: Option<Error>)
      modifies this
      ensures var r := Execute(old(State()), Instruction.CloseValid(signer, session, agentToken, receiptHash));
        if error == None then r == Ok(State()) else r == Err(error.value) && State() == old(State())
    {
      if !signer.Wallet? { return Some(MISSING_SIGNATURE); }
      if !ExitAccounts(Chain(bonds, accounts), session, agentToken) { return Some(ACCOUNT_CONSTRAINT); }
      var b := bonds[session];
      if b.authority != signer { return Some(UNAUTHORIZED); }
      if accounts[agentToken].owner != b.agent { return Some(INVALID_DESTINATION); }
      if b.status != OPEN { return Some(ALREADY_SETTLED); }
      error := MoveTokens(Escrow(session, b), agentToken, accounts[Escrow(session, b)].amount);
      if error == None {
        bonds := bonds[session := b.(receiptHash := receiptHash, status := CLOSED)];
      }
    }

    method PayOutTokens(escrow: Key, merchantToken: Key, agentToken: Key, penalty: u64) returns (error: Option<Error>)
      requires escrow in accounts && penalty <= accounts[escrow].amount
      requires merchantToken in accounts && accounts[merchantToken].mint == accounts[escrow].mint
      requires agentToken in accounts && accounts[agentToken].mint == accounts[escrow].mint
      modifies this`accounts
      ensures var r := PayOut(old(accounts), escrow, merchantToken, agentToken, penalty);
        if error == None then r == Ok(accounts) else r == Err(error.value) && accounts == old(accounts)
    {
      var before := accounts;
      var refund: u64 := accounts[escrow].amount - penalty;
      TransferOfNothing(accounts, escrow, merchantToken);
      error := None;
      if penalty > 0 {
        error := MoveTokens(escrow, merchantToken, penalty);
        if error.Some? { return; }
      }
      TransferOfNothing(accounts, escrow, agentToken);
      if refund > 0 {
        error := MoveTokens(escrow, agentToken, refund);
        if error.Some? { accounts := before; }
      }
    }

    method SettleViolation(signer: Key, session: Key, agentToken: Key, merchantToken: Key, receiptHash: Hash, penalty: u64)
      returns (error: Option<Error>)
      modifies this
      ensures var r := Execute(old(State()), Instruction.SettleViolation(signer, session, agentToken, merchantToken, receiptHash, penalty));
        if error == None then r == Ok(State()) else r == Err(error.value) && State() == old(State())
    {
      if !signer.Wallet? { return Some(MISSING_SIGNATURE); }
      if !ExitAccounts(Chain(bonds, accounts), session, agentToken) || merchantToken !in accounts || accounts[merchantToken].mint != bonds[session].mint {
        return Some(ACCOUNT_CONSTRAINT);
      }
      var b := bonds[session];
      var escrow := Escrow(session, b);
      if b.authority != signer { return Some(UNAUTHORIZED); }
      if accounts[agentToken].owner != b.agent || accounts[merchantToken].owner != b.merchant { return Some(INVALID_DESTINATION); }
      if b.status != OPEN { return Some(ALREADY_SETTLED); }
      if penalty > b.maxPenalty { return Some(PENALTY_EXCEEDS_MAX); }
      if accounts[escrow].amount < penalty { return Some(PENALTY_EXCEEDS_MAX); }
      error := PayOutTokens(escrow, merchantToken, agentToken, penalty);
      if error.Some? { return; }
      bonds := bonds[session := b.(receiptHash := receiptHash, settledPenalty := penalty, status := VIOLATED)];
    }

    method ReclaimExpired(signer: Key, session: Key, agentToken: Key, now: i64) returns (error: Option<Error>)
      modifies this
      ensures var r := Execute(old(State()), Instruction.ReclaimExpired(signer, session, agentToken, now));
        if error == None then r == Ok(State()) else r == Err(error.value) && State() == old(State())
    {
      if !signer.Wallet? { return Some(MISSING_SIGNATURE); }
      if !ExitAccounts(Chain(bonds, accounts), session, agentToken) { return Some(ACCOUNT_CONSTRAINT); }
      var b := bonds[session];
      if b.agent != signer { return Some(UNAUTHORIZED); }
      if accounts[agentToken].owner != b.agent { return Some(INVALID_DESTINATION); }
      if b.status != OPEN { return Some(ALREADY_SETTLED); }
      if b.expiresAt + GRACE_PERIOD_SECONDS > I64_MAX { return Some(ARITHMETIC_OVERFLOW); }
      if now <= b.expiresAt + GRACE_PERIOD_SECONDS { return Some(NOT_YET_RECLAIMABLE); }
      error := MoveTokens(Escrow(session, b), agentToken, accounts[Escrow(session, b)].amount);
      if error == None {
        bonds := bonds[session := b.(status := RECLAIMED)];
      }
    }
  }
}
