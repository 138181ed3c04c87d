# Expense tracker ledger and menu, in Dafny

This project models the console expense tracker `ExpenseApp`. It covers two parts:

- **The ledger.** An append-only, ordered list of `Expense(detail, cost, date)` records. It supports add, list, total and highest-expense queries. Each query answers "empty" for a ledger with no records instead of giving a value.
- **The menu loop.** It reads a choice line and parses it as an integer. It then records an expense (1), lists the records (2), shows the total (3), shows the highest expense (4) or exits (5). Any other line is reported and changes nothing.

Recording an expense reads a detail line, then repeats the amount prompt until a line is accepted, then reads a date line.

Modules:

- `Wrappers` (`wrappers.dfy`): `Option`.
- `Ledger` (`ledger.dfy`): the record type and the ledger operations. There are pure definitions (`Add`, `Sum`, `Total`, `MaxIndex`, `Max`, `Listing`). There are also methods that mirror the program's loops (`ComputeTotal`, `ScanMax`), each proved equal to the pure definition.
- `CostEntry` (`cost_entry.dfy`): the amount re-prompt loop, as a function (`ReadAmount`/`ReadCost`) and as a `while` loop (`PromptCost`).
- `Menu` (`menu.dfy`): one menu iteration (`Step`) and the whole loop, as a recursive function (`Run`) and as a `while` loop (`StartApp`) proved equal to it.

The model represents console input as the sequence of lines still to be read. It represents console output as a `Display` value per message, without wording, emoji or number formatting. `Integer.parseInt` and `Double.parseDouble` are function parameters: the model does not fix their grammar. The decimal parser yields a `Parsed` value: a parse failure, a finite number, NaN, or an infinity. Amounts are exact `real`s.

When the input runs out, the model answers `None` or stops the run with `exited == false`. The program's `Scanner` would throw there instead.

## Model

| member | source | states |
|---|---|---|
| Ledger.Add | ExpenseApp.java:60-61 | adding a record grows the ledger by one, puts the record last, keeps every earlier record unchanged and in order, and keeps all amounts non-negative exactly when the new amount is |
| Ledger.ReplayKeepsOrder | ExpenseApp.java:60-61 | a run of adds from a fresh ledger stores exactly the added records, in the order they were added |
| Ledger.SumMatchesFromFront | ExpenseApp.java:86-89 | the left-to-right accumulation of the costs equals an independent sum computed from the front |
| Ledger.SumNonNegative | ExpenseApp.java:86-89 | when every amount is non-negative, the sum is non-negative |
| Ledger.TotalAfterAdd | ExpenseApp.java:60-61 | after an add, the total is the front-first sum of the earlier records plus the new record's cost, including when the ledger was empty |
| Ledger.Total | ExpenseApp.java:80-89 | the total is "empty" exactly when the ledger has no records; otherwise it is the sum of all costs, and it is at least zero when every amount is |
| Ledger.ComputeTotal | ExpenseApp.java:80-89 | the empty check followed by the accumulation loop returns "empty" exactly for an empty ledger, and otherwise the sum of all costs |
| Ledger.MaxIndex | ExpenseApp.java:100-105 | the strict-greater scan ends on a record whose cost no record exceeds and which every earlier record undercuts, and only one position has both properties |
| Ledger.Max | ExpenseApp.java:94-105 | the maximum is "empty" exactly for an empty ledger; otherwise it is a record of the ledger whose cost is at least every record's cost, and it sits at the first such position |
| Ledger.MaxAfterAdd | ExpenseApp.java:100-105 | after an add, the maximum query answers the new record exactly when the ledger was empty or the new record costs strictly more than the old maximum; otherwise, ties included, it answers the old maximum |
| Ledger.ScanMax | ExpenseApp.java:94-105 | the empty check and the scan that replaces only on strictly greater cost compute the first-maximum query |
| Ledger.Listing | ExpenseApp.java:67-76 | the listing is "empty" exactly for an empty ledger; otherwise it has one entry per record, in insertion order |
| Ledger.QueriesAfterAdds | ExpenseApp.java:60-105 | after any non-empty run of adds, the listing is the added records, the total is their sum, and the maximum is their first highest record |
| Ledger.TwoEntryExample | ExpenseApp.java:60-105 | after adding Food 250 and then Travel 500.5, the list shows both in order, the total is 750.5 and the highest is Travel |
| CostEntry.JudgeAsWritten | ExpenseApp.java:44-53 | as written, a line is accepted exactly when it parses to a number of at least zero, to NaN or to positive infinity; it gets the negative warning exactly for a number below zero or negative infinity; it gets the invalid-number message exactly when it does not parse |
| CostEntry.Judge | ExpenseApp.java:44-53 | corrected: a line is accepted exactly when it parses to a finite number of at least zero; it gets the negative warning exactly for a number below zero or negative infinity; a parse failure, NaN and positive infinity get the invalid-number message |
| CostEntry.JudgesDifferOnlyOnNaNAndInfinity | ExpenseApp.java:45-46 | the two verdicts differ exactly on NaN and positive infinity, which the program as written accepts and the corrected verdict rejects as invalid |
| CostEntry.ReadAmount | ExpenseApp.java:42-54 | the re-prompt loop fails only when no line is acceptable; otherwise it stops at the first acceptable line and returns that line's value, with one retry message per earlier line, in order |
| CostEntry.ReadCost | ExpenseApp.java:42-54 | corrected: the amount prompt returns the first finite, non-negative number among the lines, so the amount is at least zero, and fails only if no line gives one |
| CostEntry.PromptCost | ExpenseApp.java:42-54 | corrected: the while loop of the amount prompt, with the corrected verdict, computes the same answer as the first-acceptable-line definition |
| CostEntry.NonFiniteAcceptedAsWritten | ExpenseApp.java:45-50 | as written, the lines "NaN" and "Infinity" are each accepted as the amount; the corrected prompt rejects both |
| Menu.RecordExpense | ExpenseApp.java:36-63 | recording fails only when the input runs out; otherwise it appends one record with the detail line, the first acceptable amount and the line after it as date, shows one retry message per rejected amount and then the confirmation, consumes exactly those lines, and the ledger grows by exactly the confirmed record |
| Menu.ShowExpenses | ExpenseApp.java:67-76 | listing shows the "no expenses recorded" warning exactly for an empty ledger, and otherwise every record in insertion order |
| Menu.ShowTotal | ExpenseApp.java:80-90 | the total option shows the "no expenses available" warning exactly for an empty ledger, and otherwise the sum of all costs |
| Menu.ShowMax | ExpenseApp.java:94-107 | the highest-expense option shows the warning exactly for an empty ledger, and otherwise the first record of greatest cost |
| Menu.Step | ExpenseApp.java:121-139 | one iteration reads the choice line and at least consumes it; choice 1 records an expense, 2 shows the listing, 3 the total, 4 the highest expense, and 5 shows the farewell and exits; it exits exactly on choice 5; an unparseable or out-of-range choice is reported and leaves the ledger unchanged and the loop running; the ledger changes only on choice 1, by exactly the records the messages confirm, keeping amounts non-negative |
| Menu.Run | ExpenseApp.java:111-140 | the loop reads a prefix of the input; the final ledger is the starting one followed by exactly the records whose addition was confirmed, in order, so every amount stays non-negative; when the first step cannot complete it reads nothing and changes nothing, when it exits the loop ends with exactly that step, and otherwise that step's messages, ledger and reading position are where the rest of the run starts; it stops either after the farewell, which is the last message shown, or when the rest of the input cannot complete another iteration |
| Menu.StartApp | ExpenseApp.java:111-140 | the while loop, one step per iteration until choice 5 returns or input runs out, computes exactly the recursive definition of the whole loop; its final ledger is the starting one followed by exactly the confirmed records, and when it exits the farewell is the last message |
| Menu.StartedRunIsValid | ExpenseApp.java:30-33 | starting from the fresh ledger the constructor creates, the ledger ends up holding exactly the confirmed records, and every stored amount is at least zero, whatever the input |
| Menu.UnreadableChoiceThenExit | ExpenseApp.java:122-136 | a non-numeric choice shows an error, changes nothing and the menu continues; choice 5 then ends the loop |
| Menu.TotalOfFreshLedger | ExpenseApp.java:80-84 | asking for the total on a fresh ledger shows the warning and no amount |

## Left out

- Console I/O: prompts, message wording, emoji and the menu text are not modelled. Each message is a `Display` constructor. Input is a sequence of lines.
- Running out of input: `Scanner.nextLine` throws when input ends, and the program then crashes. The model stops instead (`None`, or a `Run` with `exited == false`). When input ends in the middle of recording an expense, the program has already shown that record's retry messages and read its lines. The model drops that unfinished step entirely: no messages, and the unread lines start again at the choice line.
- The number grammars of `Integer.parseInt` and `Double.parseDouble` are not modelled. They are library code, so the parsers are parameters.
- Double arithmetic is not modelled. Costs are exact `real`s, so the rounding of `double` values and of the running `total += cost` does not appear.
- `String.format("%.2f", …)` and the `toString` layout `date | detail : ₹cost` are not modelled. They only format output.
- The contents of `detail` and `date` are free text that is never validated. They are carried unchanged.
- `main` is not modelled. It only constructs the application and starts the loop. The constructor's empty list is modelled as `Fresh`, and its `Scanner` as the input lines.
- CostEntry.ReadCost: it uses the corrected verdict. A line that parses to NaN or positive infinity is rejected with the invalid-number message and the prompt goes on, where the program accepts it as the amount. `ReadAmount` with `JudgeAsWritten` is the prompt as written.
- CostEntry.PromptCost: for the same reason, its loop rejects and re-prompts on a NaN or positive-infinity line, where the program's loop accepts it.
- Menu.RecordExpense: it uses the corrected amount verdict. On a line that parses to NaN or positive infinity, including an overflowing number such as `1e400`, the program stores that value and reads the next line as the date; the model re-prompts and reads the next line as another amount. A `real` cannot hold these values.
- Menu.Step: for the same reason, choice 1 differs from the program on amount lines that parse to NaN or positive infinity.
- Menu.Run: for the same reason, the whole loop differs from the program on amount lines that parse to NaN or positive infinity.
- Menu.StartApp: for the same reason, the loop differs from the program on amount lines that parse to NaN or positive infinity.
- Menu.StartedRunIsValid: it states the non-negative-amount invariant under the corrected verdict. The program as written breaks it with NaN (see Findings).

## Findings

| source | as written | input that shows it | evidently intended | confidence | as-written member | corrected member |
|---|---|---|---|---|---|---|
| ExpenseApp.java:45-46 | an amount is accepted when it parses and `cost < 0` is false; under IEEE 754 that comparison is false for NaN, so NaN is accepted | the amount line `NaN` | accept only a number of at least zero, so every stored cost satisfies cost >= 0 | high (not executed) | CostEntry.JudgeAsWritten, CostEntry.NonFiniteAcceptedAsWritten | CostEntry.Judge, CostEntry.ReadCost |
| ExpenseApp.java:45-46 | positive infinity (the line `Infinity`, or an overflowing number) passes the same test and is stored as an amount | the amount line `Infinity` | accept only a finite decimal amount, since costs are amounts of money shown with two decimals and summed into a total | medium (not executed) | CostEntry.JudgeAsWritten, CostEntry.NonFiniteAcceptedAsWritten | CostEntry.Judge, CostEntry.ReadCost |

The rest of the model uses the corrected verdict. Under it, NaN and positive infinity get the invalid-number message. Negative infinity keeps the negative-amount warning the program gives.
