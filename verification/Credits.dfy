/** The Credits account of a user: spendable balance, frozen balance and an append-only ledger. */
module Credits {
  import opened Wrappers
  import opened Pricing

  type UserId = nat

  datatype Kind = ActivityGrant | Purchase | AdminGrant | AdminDeduct | Consume

  datatype Entry = Entry(kind: Kind, change: int, balanceAfter: int, ref: string)

  datatype Account = Account(balance: int, frozen: int, ledger: seq<Entry>)

  const FRESH := Account(0, 0, [])

  function Total(ledger: seq<Entry>): int {
    if ledger == [] then 0 else Total(ledger[..|ledger| - 1]) + ledger[|ledger| - 1].change
  }

  lemma TotalOfAppend(ledger: seq<Entry>, e: Entry)
    ensures Total(ledger + [e]) == Total(ledger) + e.change
  {
    assert (ledger + [e])[..|ledger|] == ledger;
  }

  /** The ledger accounts for every credit the user has, spendable or frozen. */
  ghost predicate Balanced(a: Account) {
    a.balance + a.frozen == Total(a.ledger)
  }

  // ---------- The operations on the account row ----------

  /** A change of the balance and its ledger entry, in one transaction. */
  function Booked(a: Account, kind: Kind, change: int, ref: string): Account {
    Account(a.balance + change, a.frozen, a.ledger + [Entry(kind, change, a.balance + change, ref)])
  }

  function Reserved(a: Account, amount: int): Account
  {
    a.(balance := a.balance - amount, frozen := a.frozen + amount)
  }

  /** The two conditions of settle's UPDATE. */
  predicate CanSettle(a: Account, reserved: int, actual: int) {
    a.frozen >= reserved && a.balance + reserved - actual >= 0
  }

  function Settled(a: Account, reserved: int, actual: int, ref: string): Account {
    Booked(a.(frozen := a.frozen - reserved, balance := a.balance + reserved), Consume, -actual, ref)
  }

  predicate CanRelease(a: Account, reserved: int) { a.frozen >= reserved }

  /** release does not look at how many rows it changed. */
  function Released(a: Account, reserved: int): Account {
    if CanRelease(a, reserved) then a.(frozen := a.frozen - reserved, balance := a.balance + reserved) else a
  }

  lemma BookedBalances(a: Account, kind: Kind, change: int, ref: string)
    requires Balanced(a)
    ensures Balanced(Booked(a, kind, change, ref))
  {
    TotalOfAppend(a.ledger, Entry(kind, change, a.balance + change, ref));
  }

  lemma SettledBalances(a: Account, reserved: int, actual: int, ref: string)
    requires Balanced(a)
    ensures Balanced(Settled(a, reserved, actual, ref))
  {
    BookedBalances(a.(frozen := a.frozen - reserved, balance := a.balance + reserved), Consume, -actual, ref);
  }

  /** Reserving and then releasing, or settling for nothing, gives every credit back. */
  lemma ReleaseUndoesReserve(a: Account, amount: int, ref: string)
    requires a.frozen >= 0
    ensures Released(Reserved(a, amount), amount) == a
    ensures Settled(Reserved(a, amount), amount, 0, ref).balance == a.balance
    ensures Settled(Reserved(a, amount), amount, 0, ref).frozen == a.frozen
  {
  }

  function PackagePrice(credits: int): Option<int> {
    if credits == 1000 then Some(10)
    else if credits == 10000 then Some(88)
    else if credits == 100000 then Some(800)
    else None
  }

  // ---------- The tables ----------

  datatype CallRow = CallRow(user: UserId, ok: bool, cost: int)

  datatype Result<T> = Ok(value: T) | Refused

  /** tb_credit_account with each user's part of tb_credit_ledger, tb_credit_purchase_order and tb_ai_call_log. */
  class CreditTables {
    var accounts: map<UserId, Account>
    var orders: seq<(UserId, int, int)>
    var calls: seq<CallRow>

    /** A user without a row is as good as one with an empty row. */
    function Of(u: UserId): Account
      reads this
    {
      if u in accounts then accounts[u] else FRESH
    }

    ghost predicate OthersKept(before: map<UserId, Account>, u: UserId)
      reads this
    {
      forall v :: v != u ==> (v in accounts <==> v in before) && (v in accounts ==> accounts[v] == before[v])
    }

    method EnsureAccount(u: UserId)
      modifies `accounts
      ensures u in accounts && Of(u) == old(Of(u)) && OthersKept(old(accounts), u)
    {
      if u !in accounts {
        accounts := accounts[u := FRESH];
      }
    }

    method AddCredits(u: UserId, credits: int)
      modifies `accounts
      ensures u in accounts && Of(u) == old(Of(u)).(balance := old(Of(u)).balance + credits)
              && OthersKept(old(accounts), u)
    {
      EnsureAccount(u);
      accounts := accounts[u := accounts[u].(balance := accounts[u].balance + credits)];
    }

    method WriteLedger(u: UserId, kind: Kind, change: int, ref: string) returns (balance: int)
      requires u in accounts
      modifies `accounts
      ensures balance == old(Of(u)).balance
      ensures Of(u) == old(Of(u)).(ledger := old(Of(u)).ledger + [Entry(kind, change, balance, ref)])
              && OthersKept(old(accounts), u)
    {
      balance := accounts[u].balance;
      accounts := accounts[u := accounts[u].(ledger := accounts[u].ledger + [Entry(kind, change, balance, ref)])];
    }

    method GrantCredits(u: UserId, credits: int, ref: string) returns (r: Result<int>)
      modifies `accounts
      ensures r.Refused? <==> credits <= 0 || ref == ""
      ensures r.Refused? ==> accounts == old(accounts)
      ensures r.Ok? ==> Of(u) == Booked(old(Of(u)), ActivityGrant, credits, ref) && r.value == Of(u).balance
      ensures OthersKept(old(accounts), u)
    {
      if credits <= 0 || ref == "" {
        return Refused;
      }
      AddCredits(u, credits);
      var balance := WriteLedger(u, ActivityGrant, credits, ref);
      r := Ok(balance);
    }

    method PurchaseCredits(u: UserId, credits: int, orderNo: string) returns (r: Result<int>)
      modifies this
      ensures r.Ok? <==> credits == 1000 || credits == 10000 || credits == 100000
      ensures r.Refused? ==> accounts == old(accounts) && orders == old(orders)
      ensures r.Ok? ==> Of(u) == Booked(old(Of(u)), Purchase, credits, orderNo) && r.value == Of(u).balance
      ensures r.Ok? ==> var price := if credits == 1000 then 10 else if credits == 10000 then 88 else 800;
              orders == old(orders) + [(u, credits, price)]
      ensures OthersKept(old(accounts), u) && calls == old(calls)
    {
      var amount := PackagePrice(credits);
      if amount.None? {
        return Refused;
      }
      orders := orders + [(u, credits, amount.value)];
      AddCredits(u, credits);
      var balance := WriteLedger(u, Purchase, credits, orderNo);
      r := Ok(balance);
    }

    /** adjustCredits: a deduction larger than the balance is refused and leaves nothing but the account row. */
    method AdjustCredits(u: UserId, signedAmount: int, ref: string) returns (r: Result<int>)
      modifies `accounts
      ensures r.Ok? <==> signedAmount != 0 && ref != "" && (signedAmount > 0 || old(Of(u)).balance + signedAmount >= 0)
      ensures r.Refused? ==> Of(u) == old(Of(u))
      ensures r.Ok? ==> r.value == Of(u).balance
      ensures r.Ok? ==>
                Of(u) == Booked(old(Of(u)), if signedAmount > 0 then AdminGrant else AdminDeduct, signedAmount, ref)
      ensures OthersKept(old(accounts), u)
    {
      if signedAmount == 0 || ref == "" {
        return Refused;
      }
      EnsureAccount(u);
      if signedAmount > 0 {
        accounts := accounts[u := accounts[u].(balance := accounts[u].balance + signedAmount)];
      } else {
        var deduction := -signedAmount;
        if !(accounts[u].balance >= deduction) {
          return Refused;
        }
        accounts := accounts[u := accounts[u].(balance := accounts[u].balance - deduction)];
      }
      var balance := WriteLedger(u, if signedAmount > 0 then AdminGrant else AdminDeduct, signedAmount, ref);
      r := Ok(balance);
    }

    method Reserve(u: UserId, amount: int) returns (ok: bool)
      modifies `accounts
      ensures u in accounts
      ensures ok == (old(Of(u)).balance >= amount)
      ensures Of(u) == if ok then Reserved(old(Of(u)), amount) else old(Of(u))
      ensures OthersKept(old(accounts), u)
    {
      EnsureAccount(u);
      var a := accounts[u];
      ok := a.balance >= amount;
      if ok {
        accounts := accounts[u := a.(balance := a.balance - amount, frozen := a.frozen + amount)];
      }
    }

    /** settle: the account row, the ledger entry and the call row in one transaction, or nothing. */
    method Settle(u: UserId, reserved: int, actual: int, ref: string) returns (ok: bool)
      modifies `accounts, `calls
      ensures u in accounts
      ensures ok == CanSettle(old(Of(u)), reserved, actual)
      ensures Of(u) == if ok then Settled(old(Of(u)), reserved, actual, ref) else old(Of(u))
      ensures calls == if ok then old(calls) + [CallRow(u, true, actual)] else old(calls)
      ensures OthersKept(old(accounts), u)
    {
      EnsureAccount(u);
      var a := accounts[u];
      ok := a.frozen >= reserved && a.balance + reserved - actual >= 0;
      if ok {
        accounts := accounts[u := a.(frozen := a.frozen - reserved, balance := a.balance + reserved - actual)];
        var _ := WriteLedger(u, Consume, -actual, ref);
        calls := calls + [CallRow(u, true, actual)];
      }
    }

    method Release(u: UserId, reserved: int)
      requires u in accounts
      modifies `accounts
      ensures u in accounts && Of(u) == Released(old(Of(u)), reserved) && OthersKept(old(accounts), u)
    {
      var a := accounts[u];
      if a.frozen >= reserved {
        accounts := accounts[u := a.(frozen := a.frozen - reserved, balance := a.balance + reserved)];
      }
    }

    method WriteFailureLog(u: UserId)
      modifies `calls
      ensures calls == old(calls) + [CallRow(u, false, 0)]
    {
      calls := calls + [CallRow(u, false, 0)];
    }

    /**
     chat: reserve, call the provider (`usage` is None when it throws), settle; on any failure release and log.
     A call without other traffic on the account charges exactly the cost or leaves every credit where it was.
     */
    method Chat(u: UserId, messages: seq<Option<string>>, maxTokens: int, p: Price, usage: Option<(int, int)>,
                ref: string)
      returns (outcome: ChatOutcome)
      requires Of(u).frozen >= 0
      modifies `accounts, `calls
      ensures outcome.NoCredits? <==> old(Of(u)).balance < Estimate(messages, maxTokens, p)
      ensures outcome.Charged? ==> usage.Some? && outcome.credits == Cost(usage.value.0, usage.value.1, p)
      ensures outcome.Charged? ==> Of(u) == Booked(old(Of(u)), Consume, -outcome.credits, ref) && Of(u).balance >= 0
      ensures outcome.Failed? ==> usage.None? || old(Of(u)).balance < Cost(usage.value.0, usage.value.1, p)
      ensures !outcome.Charged? ==> Of(u) == old(Of(u))
      ensures calls == old(calls) + match outcome
                                    case NoCredits => []
                                    case Charged(c) => [CallRow(u, true, c)]
                                    case Failed => [CallRow(u, false, 0)]
      ensures OthersKept(old(accounts), u)
    {
      var estimate := ReserveAmount(messages, maxTokens, p);
      var reserved := Reserve(u, estimate);
      if !reserved {
        return NoCredits;
      }
      if usage.Some? {
        var actual := Cost(usage.value.0, usage.value.1, p);
        var settled := Settle(u, estimate, actual, ref);
        if settled {
          return Charged(actual);
        }
      }
      Release(u, estimate);
      WriteFailureLog(u);
      outcome := Failed;
    }
  }

  datatype ChatOutcome = NoCredits | Charged(credits: int) | Failed
}
