/** The value-level rules of the bank-account hierarchy: what a withdrawal does to a
    balance in each account variant, which exception a refused withdrawal raises, and
    how interest is compounded into a savings balance. Amounts are exact reals. */
module BankRules {

  /** The concrete class of an account together with the fields that class adds to the
      base account. `Basic` is the base class `ContBancar` itself, which the program
      can instantiate directly; `Checking` is `ContCurent` (overdraft limit),
      `Savings` is `ContEconomii` (interest rate in percent) and `Credit` is
      `ContCredit` (interest rate in percent, shown only, and credit limit). */
  datatype Variant =
    | Basic
    | Checking(overdraft: real)
    | Savings(rate: real)
    | Credit(rate: real, creditLimit: real)

  /** The two exception classes a refused withdrawal throws:
      `IllegalWithdrawal` is `ExceptieRetragere`, `OverdraftExceeded` is `ExceptieOverdraft`. */
  datatype Exception = IllegalWithdrawal | OverdraftExceeded

  /** The outcome of a withdrawal: the new balance, or the exception thrown. */
  datatype Result<T> = Ok(value: T) | Err(error: Exception)

  /** How far below zero a withdrawal may take the balance of an account of variant `v`. */
  function Allowance(v: Variant): real
  {
    match v
    case Checking(overdraft) => overdraft
    case Credit(_, creditLimit) => creditLimit
    case _ => 0.0
  }

  /** `ContBancar::retragere`, which the savings account inherits: the amount must be
      positive and covered by the balance, so the balance never ends below 0. */
  function BaseWithdrawal(balance: real, amount: real): (r: Result<real>)
    ensures r.Ok? <==> 0.0 < amount <= balance
    ensures r.Ok? ==> r.value + amount == balance && r.value >= 0.0
    ensures r.Err? ==> r.error == IllegalWithdrawal
  {
    if amount > 0.0 && amount <= balance then Ok(balance - amount)
    else Err(IllegalWithdrawal)
  }

  /** `ContCurent::retragere`: the balance may go down to minus the overdraft limit; a
      refusal throws `ExceptieOverdraft`. */
  function CheckingWithdrawal(balance: real, overdraft: real, amount: real): (r: Result<real>)
    ensures r.Ok? <==> 0.0 < amount <= balance + overdraft
    ensures r.Ok? ==> r.value + amount == balance && r.value >= -overdraft
    ensures r.Err? ==> r.error == OverdraftExceeded
  {
    if amount > 0.0 && amount <= balance + overdraft then Ok(balance - amount)
    else Err(OverdraftExceeded)
  }

  /** `ContCredit::retragere`: the balance may go down to minus the credit limit; a
      refusal throws the base class's `ExceptieRetragere`, not `ExceptieOverdraft`. */
  function CreditWithdrawal(balance: real, creditLimit: real, amount: real): (r: Result<real>)
    ensures r.Ok? <==> 0.0 < amount <= balance + creditLimit
    ensures r.Ok? ==> r.value + amount == balance && r.value >= -creditLimit
    ensures r.Err? ==> r.error == IllegalWithdrawal
  {
    if amount > 0.0 && amount <= balance + creditLimit then Ok(balance - amount)
    else Err(IllegalWithdrawal)
  }

  /** The virtual call `retragere`: the rule of the account's own class. The contract
      states the common law behind the three rules: a withdrawal succeeds exactly when
      the amount is positive and within the balance plus the variant's allowance, it
      takes exactly `amount` off, it never ends below minus the allowance, and only a
      checking account signals `OverdraftExceeded`. */
  function Withdrawal(v: Variant, balance: real, amount: real): (r: Result<real>)
    ensures r.Ok? <==> 0.0 < amount <= balance + Allowance(v)
    ensures r.Ok? ==> r.value + amount == balance
    ensures r.Ok? ==> r.value >= -Allowance(v)
    ensures r.Err? ==> (r.error == OverdraftExceeded <==> v.Checking?)
  {
    match v
    case Checking(overdraft) => CheckingWithdrawal(balance, overdraft, amount)
    case Credit(_, creditLimit) => CreditWithdrawal(balance, creditLimit, amount)
    case _ => BaseWithdrawal(balance, amount)
  }

  /** The factor one interest step multiplies a balance by, for a rate in percent. */
  function Growth(rate: real): real
  {
    1.0 + rate / 100.0
  }

  /** The balance after one call of `actualizareDobanda`: the interest
      `balance * (rate / 100)` is added to the balance. */
  function Interest(balance: real, rate: real): (r: real)
    ensures r == balance * Growth(rate)
    ensures rate == 0.0 ==> r == balance
    ensures rate > 0.0 && balance > 0.0 ==> r > balance
    ensures rate >= 0.0 && balance >= 0.0 ==> r >= balance
    ensures rate > 0.0 && balance < 0.0 ==> r < balance
  {
    balance + balance * (rate / 100.0)
  }

  /** The balance after `n` successive interest steps. */
  function Compound(balance: real, rate: real, n: nat): real
  {
    if n == 0 then balance else Interest(Compound(balance, rate, n - 1), rate)
  }

  /** `x` raised to the `n`-th power, for the closed form of `Compound`. */
  function Power(x: real, n: nat): real
  {
    if n == 0 then 1.0 else x * Power(x, n - 1)
  }

  /** Repeated interest steps compound: `n` steps multiply the balance by the growth
      factor raised to the `n`-th power. */
  lemma {:induction false} CompoundClosedForm(balance: real, rate: real, n: nat)
    ensures Compound(balance, rate, n) == balance * Power(Growth(rate), n)
  {
    if n > 0 {
      CompoundClosedForm(balance, rate, n - 1);
      var g, p := Growth(rate), Power(Growth(rate), n - 1);
      assert Compound(balance, rate, n) == (balance * p) * g;
      Regroup(balance, p, g);
    }
  }

  /** Regrouping of a product, in the shape the step of `CompoundClosedForm` needs. */
  lemma Regroup(a: real, b: real, c: real)
    ensures (a * b) * c == a * (c * b)
  {
  }

  /** At rate 0 any number of interest steps leaves the balance as it was. */
  lemma {:induction false} CompoundAtZeroRate(balance: real, n: nat)
    ensures Compound(balance, 0.0, n) == balance
  {
    if n > 0 {
      CompoundAtZeroRate(balance, n - 1);
    }
  }

  /** With a positive rate and a positive balance every further interest step strictly
      increases the balance, and it stays positive. */
  lemma {:induction false} CompoundStrictlyIncreases(balance: real, rate: real, m: nat, n: nat)
    requires rate > 0.0 && balance > 0.0
    requires m < n
    ensures 0.0 < Compound(balance, rate, m) < Compound(balance, rate, n)
  {
    if m < n - 1 {
      CompoundStrictlyIncreases(balance, rate, m, n - 1);
    } else {
      CompoundStaysPositive(balance, rate, m);
    }
  }

  /** With a positive rate, a positive balance stays positive through any number of steps. */
  lemma {:induction false} CompoundStaysPositive(balance: real, rate: real, n: nat)
    requires rate > 0.0 && balance > 0.0
    ensures Compound(balance, rate, n) > 0.0
  {
    if n > 0 {
      CompoundStaysPositive(balance, rate, n - 1);
    }
  }

  /** A credit account with balance 1500 and credit limit 1000 refuses a withdrawal of
      3000 with `IllegalWithdrawal`, not `OverdraftExceeded`. */
  lemma CreditRefusalScenario()
    ensures Withdrawal(Credit(2.0, 1000.0), 1500.0, 3000.0) == Err(IllegalWithdrawal)
  {
  }
}
