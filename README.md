# Bank accounts: withdrawal rules, interest and the live-account count

A model of the account hierarchy in `main.cpp`. The base account `ContBancar` holds an
owner and a balance `sold_`. Three classes derive from it: the checking account
`ContCurent` adds an overdraft limit, the savings account `ContEconomii` adds an interest
rate, and the credit account `ContCredit` adds an interest rate and a credit limit.
Each class has its own withdrawal rule (`retragere`). The savings account can compound
interest into its balance (`actualizareDobanda`). The helper `operatiuneBancara` applies
interest to a savings account and only displays any other account. A static counter
`numarConturiActive_` counts the accounts that are currently live.

- `rules.dfy`, module `BankRules`: the value-level rules. `Variant` tags the class of an
  account and holds the fields that class adds. `BaseWithdrawal`, `CheckingWithdrawal`
  and `CreditWithdrawal` are the three withdrawal rules: each gives the new balance, or
  the exception it throws. `Withdrawal` picks the rule of the account's class. `Interest` is one interest
  step and `Compound` is several of them.
- `accounts.dfy`, module `Accounts`: the objects. `Registry` is the static counter, made
  an explicit object that every constructor and destructor gets. `Account` is one class
  for the whole hierarchy, tagged by its `const variant`. Its balance is the only
  mutable field, and its methods update it in place. `BankOperation` is the dispatch
  helper. `DriverScenario` replays the demonstration driver.

Amounts are exact `real`s. The C++ `double` is not modelled.

Notes on the code:
- The base class `ContBancar` has no pure virtual member, so the program can instantiate
  it. The model therefore has a `Basic` variant as well as the three derived ones.
- When the driver first queries the count (main.cpp:196), only the checking and the
  savings account exist, because the credit account is created afterwards
  (main.cpp:198). So the count printed there is 2. `DriverScenario` proves 2 at
  that query, 3 once the credit account exists, and 0 after the scope ends.
- No constructor checks its arguments. A negative initial balance, overdraft, rate or
  limit is accepted and the rules are applied to it unchanged. The model has no
  `requires` on these values either.

## Model

| member | source | states |
|---|---|---|
| `BankRules.BaseWithdrawal` | main.cpp:91-97 | The base rule, which the savings account inherits. It succeeds iff `0 < amount <= balance`, and then takes exactly `amount` off, so the balance never ends below 0. It refuses with `IllegalWithdrawal`. |
| `BankRules.CheckingWithdrawal` | main.cpp:126-133 | It succeeds iff `0 < amount <= balance + overdraft`, and then takes exactly `amount` off, so the balance never ends below `-overdraft`. It refuses with `OverdraftExceeded`. |
| `BankRules.CreditWithdrawal` | main.cpp:170-177 | It succeeds iff `0 < amount <= balance + creditLimit`, and then takes exactly `amount` off, so the balance never ends below `-creditLimit`. It refuses with `IllegalWithdrawal`, not `OverdraftExceeded`. |
| `BankRules.Withdrawal` | main.cpp:12 | The virtual `retragere` runs the rule of the account's own class. A withdrawal succeeds iff `0 < amount <= balance + allowance`. The allowance is 0 for the base and savings accounts, the overdraft for a checking account and the credit limit for a credit account. On success exactly `amount` is taken off, so the balance never ends below minus the allowance. On refusal only a checking account raises `OverdraftExceeded`. |
| `BankRules.CreditRefusalScenario` | main.cpp:170-177 | A credit account with balance 1500 and limit 1000 refuses a withdrawal of 3000 with `IllegalWithdrawal`. |
| `BankRules.Interest` | main.cpp:149-151 | One interest step multiplies the balance by `1 + rate/100`. At rate 0 the balance is unchanged. With a positive rate, a positive balance strictly grows, a negative one strictly falls. A non-negative balance at a non-negative rate never falls. |
| `BankRules.CompoundClosedForm` | main.cpp:149-151 | `n` successive interest steps multiply the balance by `(1 + rate/100)^n`, so repeated calls compound. |
| `BankRules.CompoundAtZeroRate` | main.cpp:149-151 | Any number of interest steps at rate 0 leaves the balance unchanged. |
| `BankRules.CompoundStrictlyIncreases` | main.cpp:149-151 | With a positive rate and a positive balance, every further interest step strictly increases the balance, which stays positive. |
| `Accounts.Registry.constructor` | main.cpp:74 | The counter starts at 0 with no account live. |
| `Accounts.Registry.ActiveCount` | main.cpp:100-102 | The count returned equals the number of live accounts and equals constructions minus destructions. |
| `Accounts.Registry.Enter` | main.cpp:79 | The count goes up by one and the account joins the live set. |
| `Accounts.Registry.Leave` | main.cpp:84 | The count goes down by one and the account leaves the live set. |
| `Accounts.Account.constructor` | main.cpp:76-80 | Owner, initial balance and variant fields are stored unchecked. The account is added to the live set, and the count and the constructions go up by one. |
| `Accounts.Account.Destroy` | main.cpp:82-85 | A live account leaves the live set, the count goes down by one and the destructions go up by one. |
| `Accounts.Account.Withdraw` | main.cpp:91-97 | `retragere` of the account's class: the base rule here, and equally the overrides at main.cpp:126-133 and main.cpp:170-177. It returns normally exactly when `Withdrawal` permits it, and then the balance is lower by exactly `amount`. Otherwise it throws the class's exception and the balance is unchanged. Owner and variant fields are constants and never change. |
| `Accounts.Account.ApplyInterest` | main.cpp:149-153 | Only a savings account has it. The balance becomes `Interest(balance, rate)`. |
| `Accounts.BankOperation` | main.cpp:179-186 | A savings account's balance becomes `Interest(balance, rate)`. Every other account is unchanged. |
| `Accounts.DriverScenario` | main.cpp:188-209 | The driver's run: the count is 2 at the first query. The savings account reaches 2050 after interest, and the credit account stays at 1500. Withdrawing 800 from the checking account (1000, overdraft 500) succeeds and leaves 200. The count is 3 while all three accounts are live and 0 after the scope ends. |

## Left out

- Console output: the trace lines of constructors, destructors and withdrawals; the
  `afisareSold` display methods; the exception `what()` texts (main.cpp:104-110). None
  of these changes any state, so displaying an account is modelled as doing nothing.
- Exceptions become a returned `Status`. The driver's `try`/`catch` is not modelled, and
  neither is the propagation of an exception up to it. `DriverScenario` follows the path
  on which nothing is thrown, which is the path the driver takes.
- IEEE `double` rounding: amounts are exact reals.
- Integer width of the counter: `numarConturiActive_` is a C++ `int`, where signed
  overflow is undefined behaviour; `Registry.active` is an unbounded integer. No
  realistic run holds that many live accounts.
- Virtual dispatch and `dynamic_cast`: one class with a variant tag replaces the
  hierarchy, and `BankOperation` tests the tag.
- `mutable` on the `const` method `actualizareDobanda`: `ApplyInterest` is an ordinary
  mutating method.
- The order in which derived and base destructors run: only the base destructor changes
  state, so `Destroy` models it alone.
- Use after destruction: `Withdraw` and `ApplyInterest` do not require the account to be
  live. In C++ such a use is undefined behaviour.
- The compiler-generated copy constructor: it would not increment the counter, but the
  copy's destructor would still decrement it. The program never copies an account.
- Concurrency: the program has none, so the counter needs no synchronisation.
