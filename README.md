# Budget categories and the spend chart, in Dafny

This project models `budget.py`, a small envelope-budgeting helper. It has two parts:

- **The `Category` ledger.** A category has a name and an append-only ledger of signed entries `(amount, description)`.
  - `deposit` appends an entry.
  - `get_balance` sums the ledger.
  - `check_funds` is the single gate on spending.
  - `withdraw` appends the negated amount, and only when there are enough funds.
  - `transfer` pairs a withdrawal here with a deposit into another category. It mutates nothing when the funds check fails.
- **Rendering.**
  - `str(category)` prints the ledger 30 columns wide.
  - `create_spend_chart` draws each category's share of all withdrawals as an ASCII bar chart. The category names run vertically underneath.

Amounts are **integer cents**. `f'{x:7.2f}'` becomes exact decimal formatting (`Text.Fixed2`, right-justified to 7). `round(spend, 2)` is the identity. The float division and floor `int(((a/total)*10)//1)*10` becomes exact floor division (`SpendChart.FloorDiv`).

Files, one module each:

- `text.dfy` (`Text`): the string operations the program uses. These are repetition, `s[:n]`, `ljust`, `rjust`, `center(3)` of one character, `str()` of a natural number, two-decimal formatting, `'\n'.join` and `rstrip('\n')`. Three of them have an inverse they are checked against: `str()` of a number and the two-decimal format read back, and `split('\n')` undoes the join. Repetition, `s[:n]`, `ljust`, `rjust` and `rstrip('\n')` are pinned down by their ensures clauses or by shape lemmas. `center(3)` of one character is a plain definition.
- `ledger.dfy` (`Ledger`): the `Entry` datatype, and the balance, spend (withdrawals only) and income of a ledger.
- `report.dfy` (`Report`): the printout of a category as pure functions, with lemmas about its layout.
- `spend_chart.dfy` (`SpendChart`): percentages, bar rows, axis, footer and the whole chart text as pure functions, with lemmas about its layout.
- `budget.dfy` (`Budget`): the `Category` class and `CreateSpendChart`.
  - `Category` keeps `ledger: seq<Entry>` as a field. Its methods append to it in place.
  - `GetBalance`, `ToString` and the loops of `create_spend_chart` are `for` loops. Each is proved equal to the functions above.
- `scenarios.dfy` (`Scenarios`): client code that uses only the method contracts. It covers the groceries withdrawal, the inclusive funds check, a transfer between two categories, a refused transfer and a transfer to itself. It also covers the percentages of three categories that withdrew 0, 15.00 and 35.00.

A ledger line is 30 columns wide only while its amount fits in seven characters, that is from -999.99 to 9999.99. A larger amount widens the line, because the format pads but never truncates (`Report.EntryLineLayout`). The title line is 30 wide only for names of even length. Odd-length names shorter than 30 give 29 columns. From 29 characters on, no asterisks are written. The model reproduces this as written (`Report.Title`).

## Model

| member | source | states |
|---|---|---|
| `Budget.Category.constructor` | budget.py:2-4 | a new category has the given name, an empty ledger and balance 0 |
| `Budget.Category.Deposit` | budget.py:6-12 | appends exactly `(amount, description)` after the old entries, with no check on the amount; the balance rises by `amount` |
| `Budget.Category.GetBalance` | budget.py:14-21 | the loop returns the sum of all ledger amounts |
| `Budget.Category.CheckFunds` | budget.py:23-29 | true exactly when the balance is at least `amount` |
| `Budget.Category.Withdraw` | budget.py:31-40 | true iff the old balance is at least `amount`; on true it appends exactly `(-amount, description)` and the balance falls by `amount`; on false the ledger is unchanged |
| `Budget.Category.Transfer` | budget.py:42-54 | true iff the source balance is at least `amount`. On true, the source gains `(-amount, "Transfer to " + destination.name)` and the destination gains `(amount, "Transfer from " + name)`. When the destination is the source itself, both entries go to the one ledger, withdrawal first. On false neither ledger changes. Between two categories, the source's balance falls and the destination's rises by exactly the amount moved, so their combined balance is preserved; a transfer to itself leaves its balance unchanged |
| `Budget.Category.ToString` | budget.py:56-79 | the loop-built printout equals `Report.Render(name, ledger)` |
| `Ledger.BalanceAppend` | budget.py:18-21 | the balance of two ledgers concatenated is the sum of their balances |
| `Ledger.BalanceAppendEntry` | budget.py:12 | appending one entry changes the balance by exactly its amount |
| `Ledger.BalanceOrderIndependent` | budget.py:18-21 | two ledgers with the same entries in any order have the same balance |
| `Ledger.Spend` | budget.py:90-93 | the sum of a ledger's negative entries is never positive |
| `Ledger.Balance` | budget.py:18-21 | the sum of all amounts (0 for an empty ledger), which is always the deposits (entries >= 0) plus the withdrawals (entries < 0) |
| `Ledger.BalanceFromFront` | budget.py:18-21 | summed first to last, as `get_balance` loops, the total is the same: 0 for an empty ledger, else the first amount plus the balance of the rest |
| `Ledger.SpendOfDeposits` | budget.py:91-93 | a ledger with no negative entry has spend 0: deposits never count as spending |
| `Report.Title` | budget.py:58-64 | the title is the name between two equal runs of asterisks. It is 30 wide for even-length names up to 30 and 29 wide for odd lengths below 30. From 29 characters on it is the bare name |
| `Report.EntryLineLayout` | budget.py:70-73 | an entry line starts with the first 23 characters of the description, space-padded to column 23. The amount follows right-aligned and reads back exactly. The line is at least 30 wide, and exactly 30 iff the amount lies in -999.99..9999.99 |
| `Report.TotalLineLayout` | budget.py:76 | the last line is `Total:` followed by the balance, which reads back exactly; it is 13 wide iff the balance lies in -999.99..9999.99 |
| `Report.AmountFieldReadsBack` | budget.py:72 | the `:7.2f` field is at least 7 wide and, leading spaces dropped, parses back to the amount |
| `Report.RenderLines` | budget.py:56-79 | split at newlines, the printout is the title, one line per entry in ledger order, then the Total line. An empty ledger gives an empty line instead of entry lines. There is no trailing newline |
| `Text.Fixed2RoundTrip` | budget.py:72 | the two-decimal text of an amount parses back to that amount |
| `Text.Fixed2Width` | budget.py:72 | the two-decimal text fits in 7 characters exactly for -999.99..9999.99 |
| `Text.DigitsRoundTrip` | budget.py:102 | `str(n)` of a natural number reads back as n |
| `Text.DigitsLength` | budget.py:102 | `str(n)` has at most k digits exactly when n < 10^k |
| `Text.SplitJoinLines` | budget.py:79 | lines without newlines joined with `'\n'` split back into the same lines |
| `Text.StripTerminated` | budget.py:118 | stripping the trailing newlines from newline-terminated lines gives the lines joined, provided the last line ends in another character |
| `SpendChart.MaxLength` | budget.py:112 | the result is at least the length of every name and equal to one of them; it needs a non-empty list |
| `SpendChart.PadNames` | budget.py:113 | every padded name has the length of the longest name |
| `SpendChart.PaddedChar` | budget.py:113 | character k of a padded name is the name's own character, or a space past its end |
| `SpendChart.Percent` | budget.py:98 | a category's percentage is ten times the floor of 10 * spend / total, computed exactly in cents, so always a multiple of 10. `SpendChart.Percentages` applies it to every category against the grand total |
| `SpendChart.FloorDiv` | budget.py:98 | Python's `//`: the quotient q satisfies q*y <= x < q*y + y for y > 0, and the mirror image for y < 0 |
| `SpendChart.IntSumOfNonPositive` | budget.py:97 | the total of non-positive spends is non-positive and at most each of them |
| `SpendChart.PercentInRange` | budget.py:98 | for total < 0 and total <= spend <= 0 the percentage is a multiple of 10 between 0 and 100 |
| `SpendChart.PercentagesInRange` | budget.py:97-98 | with non-positive spends and a non-zero total, every percentage is one of 0, 10, …, 100 |
| `SpendChart.ChartPercentagesInRange` | budget.py:88-98 | the percentages computed from ledgers' withdrawals all lie in 0, 10, …, 100 |
| `SpendChart.PercentMonotone` | budget.py:98 | a category that spent at least as much as another gets at least as high a percentage |
| `SpendChart.NoSpendNoBar` | budget.py:98 | a category with no withdrawals gets 0 percent |
| `SpendChart.AllSpendFullBar` | budget.py:98 | a category whose spend is the whole total gets 100 percent |
| `SpendChart.BarMarking` | budget.py:101-108 | bar row r (top = 0) is labelled `str(100 - 10r).rjust(3) + '|'`, and its cell for category i (columns 4+3i..6+3i) is `" o "` exactly when that category's percentage is at least the row's value, else blank |
| `SpendChart.BarIsContiguous` | budget.py:101-108 | a bar is one unbroken run: a cell marked on a row is marked on every row below, and every category marks the 0 row |
| `SpendChart.NameColumn` | budget.py:111-116 | footer row k starts with 4 spaces and holds, for category i, character k of its name centred between two spaces, or a blank once the name has ended |
| `SpendChart.ChartLayout` | budget.py:100-116 | the chart has the title, 11 bar rows, the dash line (4 spaces and 3n+1 dashes) and one footer row per character of the longest name. Every line after the title is 3n+5 wide |
| `SpendChart.ChartIsJoinedLines` | budget.py:118 | the returned text is the chart's lines joined by newlines, with no trailing newline |
| `SpendChart.SpendChartLines` | budget.py:85-118 | split at newlines, the returned text is exactly the title, the bar rows, the axis and the footer rows: 13 + (longest name) lines |
| `Scenarios.ThreeCategoryPercentages` | budget.py:97-98 | withdrawals of 0, 15.00 and 35.00 total 50.00 and give 0, 30 and 70 percent |
| `Budget.CreateSpendChart` | budget.py:83-118 | for a non-empty list with non-zero total spend, the result is `SpendChart.ChartText` of the categories' names and current ledgers |
| `Budget.SpendAmounts` | budget.py:88-94 | the nested loop yields, per category, the sum of its negative entries |
| `Budget.DrawBars` | budget.py:100-108 | the loop yields the 11 bar rows for 100 down to 0, each ending in a newline |
| `Budget.DrawBarRow` | budget.py:102-108 | one row is the label, `|`, one cell per percentage and a trailing space |
| `Budget.DrawFooter` | budget.py:110-116 | the loop yields the dash line and the transposed name rows, each ending in a newline |
| `Budget.NamesOf` | budget.py:111 | the names of the categories, in order |
| `Budget.LedgersOf` | budget.py:89-91 | the ledgers of the categories, in order, as they are when the chart is drawn |

## Left out

- Binary floating point. Amounts are integer cents. The model does not capture float rounding in `round(spend, 2)`, in the `:7.2f` formatting or in the percentage division. It also does not capture the `-0.00` that `withdraw(0.0)` would store.
- Python exceptions. `create_spend_chart` raises on an empty list (`max` of nothing) and when no category has a withdrawal (division by zero). Here these are the preconditions `|categories| > 0` and a non-zero total spend. `SpendChart.ChartText` and `SpendChart.MaxLength` carry the same preconditions.
- Duck typing of `transfer_to`. Any object with `.name` and `deposit` would do in Python. Here the destination is a `Category`.
- The category's `name` is a constant field. The source sets it once and never reassigns it.
- Ledger entries are the datatype `Entry(amount, description)`, not dictionaries.
- Only the uses of `ljust`, `rjust`, `center` and `str()` that the program makes are modelled, not their general semantics. These are `center(3)` of one character, `ljust` to 23 or to the longest name, and `rjust` of a non-negative integer or an amount.
- `create_spend_chart`'s three loops are written as the helper methods `SpendAmounts`, `DrawBars` (with `DrawBarRow`) and `DrawFooter`. The pure steps (percentages, `max`, padding, the `zip` transposition, `"".join`) are functions.
- Report.RenderLines: stated only for a name and descriptions without newline characters. A newline inside a field would split one printed line into two.
- SpendChart.SpendChartLines: stated only for names without newline characters, for the same reason. `SpendChart.ChartIsJoinedLines`, `SpendChart.ChartLayout`, `SpendChart.BarMarking` and `SpendChart.NameColumn` hold for any names.
