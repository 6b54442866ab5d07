/** The account objects of the program: the process-wide count of live accounts, the
    account class with its in-place withdrawal and interest update, the dispatch helper
    `operatiuneBancara`, and the run of the demonstration driver. */
module Accounts {
  import opened BankRules

  /** What a call of `retragere` does to its caller: it returns normally, or it throws.
      The C++ method returns nothing, so unlike the rule's `Result<real>` this carries no
      balance: the new balance is the account's updated field. */
  datatype Status = Success | Thrown(exception: Exception)

  /** The static counter `ContBancar::numarConturiActive_`, made an explicit object that
      every account constructor and destructor is given. The ghost fields record which
      accounts are live and how many were ever constructed and destroyed. */
  class Registry {
    var active: int
    ghost var live: set<Account>
    ghost var constructed: nat
    ghost var destroyed: nat

    ghost predicate Valid()
      reads this
    {
      active == |live| && active == constructed - destroyed
    }

    /** Program start: the counter is initialised to 0. */
    constructor ()
      ensures Valid()
      ensures active == 0 && live == {} && constructed == 0 && destroyed == 0
    {
      active, live, constructed, destroyed := 0, {}, 0, 0;
    }

    /** `numarConturiActive()`: the number of accounts currently live. */
    method ActiveCount() returns (n: int)
      requires Valid()
      ensures n == |live|
      ensures n == constructed - destroyed
    {
      n := active;
    }

    /** The increment done by every account constructor. */
    method Enter(account: Account)
      requires Valid() && account !in live
      modifies this
      ensures Valid()
      ensures live == old(live) + {account} && active == old(active) + 1
      ensures constructed == old(constructed) + 1 && destroyed == old(destroyed)
    {
      active := active + 1;
      live := live + {account};
      constructed := constructed + 1;
    }

    /** The decrement done by every account destructor. */
    method Leave(account: Account)
      requires Valid() && account in live
      modifies this
      ensures Valid()
      ensures live == old(live) - {account} && active == old(active) - 1
      ensures constructed == old(constructed) && destroyed == old(destroyed) + 1
    {
      active := active - 1;
      live := live - {account};
      destroyed := destroyed + 1;
    }
  }

  /** An account of any class of the hierarchy. The owner and the variant's own fields
      are never written after construction; the balance `sold_` is the only state. */
  class Account {
    const owner: string
    const variant: Variant
    var balance: real

    /** The constructor of each class: it records the owner, the initial balance and
        the variant's fields, none of them checked, and counts the account as live. */
    constructor (bank: Registry, owner: string, initialBalance: real, variant: Variant)
      requires bank.Valid()
      modifies bank
      ensures this.owner == owner && this.variant == variant && balance == initialBalance
      ensures bank.Valid()
      ensures bank.live == old(bank.live) + {this} && bank.active == old(bank.active) + 1
      ensures bank.constructed == old(bank.constructed) + 1
      ensures bank.destroyed == old(bank.destroyed)
    {
      this.owner := owner;
      this.variant := variant;
      balance := initialBalance;
      new;
      bank.Enter(this);
    }

    /** The destructor: the account is no longer counted as live. */
    method Destroy(bank: Registry)
      requires bank.Valid() && this in bank.live
      modifies bank
      ensures bank.Valid()
      ensures bank.live == old(bank.live) - {this} && bank.active == old(bank.active) - 1
      ensures bank.constructed == old(bank.constructed)
      ensures bank.destroyed == old(bank.destroyed) + 1
    {
      bank.Leave(this);
    }

    /** `retragere` as the account's class defines it. A permitted withdrawal lowers
        the balance by exactly `amount`; a refused one throws the class's exception and
        leaves the balance as it was. */
    method Withdraw(amount: real) returns (status: Status)
      modifies this
      ensures status.Success? <==> Withdrawal(variant, old(balance), amount).Ok?
      ensures status.Success? ==> balance == old(balance) - amount
      ensures status.Thrown? ==> balance == old(balance)
      ensures status.Thrown? ==> status.exception == Withdrawal(variant, old(balance), amount).error
    {
      var r := Withdrawal(variant, balance, amount);
      if r.Ok? {
        balance := r.value;
        status := Success;
      } else {
        status := Thrown(r.error);
      }
    }

    /** `actualizareDobanda`, which only a savings account has. */
    method ApplyInterest()
      requires variant.Savings?
      modifies this
      ensures balance == Interest(old(balance), variant.rate)
    {
      balance := balance + balance * (variant.rate / 100.0);
    }
  }

  /** `operatiuneBancara`: a savings account has interest applied; any other account is
      only displayed, which changes nothing. */
  method BankOperation(account: Account)
    modifies account
    ensures account.variant.Savings? ==> account.balance == Interest(old(account.balance), account.variant.rate)
    ensures !account.variant.Savings? ==> account.balance == old(account.balance)
  {
    if account.variant.Savings? {
      account.ApplyInterest();
    }
  }

  /** The demonstration driver: a checking account (1000, overdraft 500) and a savings
      account (2000, rate 2.5) are created and passed to `BankOperation`, the count is
      queried, a credit account (1500, rate 2, limit 1000) is created and passed to
      `BankOperation`, 800 is withdrawn from the checking account, and the three
      accounts are destroyed in reverse order of construction when their scope ends
      before the count is queried again. `countAllLive` is the count while all three
      accounts are live, which the driver itself does not print. */
  method DriverScenario()
    returns (countAtQuery: int, countAllLive: int, checkingAfter: real, savingsAfter: real, creditAfter: real,
             status: Status, countAtEnd: int)
    ensures countAtQuery == 2 && countAllLive == 3
    ensures savingsAfter == 2050.0 && creditAfter == 1500.0
    ensures status == Success && checkingAfter == 200.0
    ensures countAtEnd == 0
  {
    var bank := new Registry();
    var checking := new Account(bank, "Popescu Ioan ", 1000.0, Checking(500.0));
    BankOperation(checking);
    var savings := new Account(bank, "Ionescu Mihai", 2000.0, Savings(2.5));
    BankOperation(savings);
    countAtQuery := bank.ActiveCount();
    var credit := new Account(bank, "Alice", 1500.0, Credit(2.0, 1000.0));
    BankOperation(credit);
    countAllLive := bank.ActiveCount();
    status := checking.Withdraw(800.0);
    checkingAfter, savingsAfter, creditAfter := checking.balance, savings.balance, credit.balance;
    credit.Destroy(bank);
    savings.Destroy(bank);
    checking.Destroy(bank);
    countAtEnd := bank.ActiveCount();
  }
}
