# Personal ledger core, in Dafny

A model of the service layer of a small personal bookkeeping application (`finance_app.py`).
Records ("transactions") carry an id, an amount, a type (income "收入" or expense "支出"), a
category, a date string and a note. Three services work on them:

- **CategoryService** keeps, per type, a fixed list of default categories and a user list to
  which categories can be added.
- **TransactionService** keeps the records in a list. It creates records with ids `T000001`,
  `T000002`, … derived from the current list length, updates and deletes the first record with a
  given id, looks records up, selects them by date range and searches them with combinable
  filters.
- **StatisticsService** totals income and expense over a date range, computes the net balance,
  sums amounts per category and counts records per type.

The modules:

| module | file | contents |
|---|---|---|
| `Wrappers` | `wrappers.dfy` | `Option` |
| `Text` | `text.dfy` | decimal digits, `f"{n:06d}"`-style padding, ASCII `lower()`, substring test, `str()` of an amount |
| `Dates` | `dates.dfy` | `datetime.strptime(s, "%Y-%m-%d")` as `Parse`, calendar validity, date order, `Format` |
| `Subsequences` | `subsequences.dfy` | "`a` is `b` with some elements dropped, order kept" |
| `Transactions` | `transactions.dfy` | the record, `to_dict`/`from_dict`, whole-list save and load |
| `Ledger` | `ledger.dfy` | ids, first-match lookup, update and delete on the list, id uniqueness facts |
| `Queries` | `queries.dfy` | filters, the date-range query, the staged search |
| `Statistics` | `statistics.dfy` | sums, per-category totals, counts |
| `FinanceApp` | `finance_app.dfy` | the three service classes, with their state updated in place |
| `Scenarios` | `scenarios.dfy` | two client walk-throughs driving the service classes |

Amounts are integers counting cents. Dates stay strings inside records, as in the source, and are
parsed wherever the source calls `strptime`. `Parse` follows the regular expressions CPython uses
for `%Y-%m-%d`:

- the year is exactly four digits;
- month and day may drop their leading zero, and the day may be written with a leading space;
- the whole string must be used up;
- the result must be a real calendar day in years 1 to 9999.

The id scheme does not survive deletion. `create_transaction` numbers a new record after the
current length of the list, so after a delete the next id can be one the list already holds.
`Ledger.DeleteThenCreateCollides` proves this for every list built by creates alone, and
`Scenarios.IdCollision` shows it on three records. After such a collision, update, delete and
lookup all act on the older record, because each of them stops at the first match
(`Ledger.UpdatedFirst`, `Ledger.DeletedFirst`, `Ledger.FindById`).

## Model

| member | source | states |
|---|---|---|
| `Transactions.ToDict` | finance_app.py:31-40 | the dictionary has exactly the six keys, and `from_dict` gives the record back |
| `Transactions.FromDict` | finance_app.py:42-52 | succeeds exactly when the five required keys are present with the right kinds of value; id, amount, type, category and date are read from the dictionary; a missing note becomes "" |
| `Transactions.DictRoundTrip` | finance_app.py:31-52 | a six-key dictionary that `from_dict` accepts comes back unchanged through `to_dict` |
| `Transactions.SaveAll` | finance_app.py:238-245 | one dictionary per record, in order: the i-th is `to_dict` of the i-th record |
| `Transactions.LoadAll` | finance_app.py:247-255 | succeeds exactly when `from_dict` accepts every stored dictionary, and then gives one record per dictionary, in order, each the one `from_dict` builds from it |
| `Transactions.LoadSaveRoundTrip` | finance_app.py:238-255 | loading what was saved gives the same list back |
| `Transactions.Restore` | finance_app.py:247-255 | no stored data gives the empty list; a stored dictionary that `from_dict` rejects leaves the list empty; otherwise the list holds the record of each dictionary, in order |
| `Transactions.RestoreSaved` | finance_app.py:238-255 | a service started on what another saved has the same list |
| `FinanceApp.CategoryService.constructor` | finance_app.py:58-67 | both user lists exist; each is the stored list of its type, or empty when none was stored |
| `FinanceApp.CategoryService.GetCategoriesByType` | finance_app.py:69-73 | the defaults of the type come first, then the user's additions; an unknown type has neither |
| `FinanceApp.CategoryService.AddUserCategory` | finance_app.py:75-81 | an empty category returns false before the user list is looked up; a non-empty one for a type without a user list raises KeyError; for "收入" and "支出" it always returns. Otherwise true exactly when the category is non-empty and new. On true the category is appended to that list only, and `get_categories_by_type` grows by exactly that category. Both user lists stay present, and lists without duplicates stay without duplicates |
| `FinanceApp.TransactionService.constructor` | finance_app.py:106-112 | the list is what loading the stored data gives: empty when there is none or when a record is rejected |
| `FinanceApp.TransactionService.Snapshot` | finance_app.py:238-245 | what is saved loads back to the current list |
| `Ledger.IdFor` | finance_app.py:118 | the id is "T" followed by at least six characters |
| `Ledger.IdForValue` | finance_app.py:118 | the characters after "T" are digits that read back as n |
| `Ledger.IdForInjective` | finance_app.py:118 | different list lengths give different ids |
| `FinanceApp.TransactionService.CreateTransaction` | finance_app.py:114-132 | returns true and appends one record whose id comes from the old length and whose other fields are the arguments; earlier records are unchanged |
| `Ledger.CreateKeepsSequentialIds` | finance_app.py:114-132 | without deletions the new id is not yet in the list, and ids stay `T000001`, `T000002`, … in order |
| `Ledger.SequentialIdsUnique` | finance_app.py:118 | a list built by creates alone has no repeated id |
| `Ledger.CreateThenFind` | finance_app.py:114-171 | a record created with a fresh id is what the lookup returns |
| `Ledger.IndexOfId` | finance_app.py:139-140 | the position of the first record with the id; none exactly when no record has it |
| `Ledger.SameIdsSameIndex` | finance_app.py:139-140 | the scan's result depends only on the ids in the list |
| `Ledger.FindById` | finance_app.py:166-171 | the first record with the id; None exactly when no record has it |
| `FinanceApp.TransactionService.GetTransactionById` | finance_app.py:166-171 | the loop returns the first record with the id, or None |
| `Ledger.UpdatedFirst` | finance_app.py:134-151 | same length and same ids; only the first record with the id changes, and a lookup of the id then yields the new fields; an unknown id changes nothing |
| `FinanceApp.TransactionService.UpdateTransaction` | finance_app.py:134-151 | returns whether the id was present, and leaves the list as `UpdatedFirst` describes |
| `Ledger.DeletedFirst` | finance_app.py:153-164 | an unknown id changes nothing; otherwise exactly the record at the first position holding the id is removed, the others keeping their order, and the list is one shorter |
| `FinanceApp.TransactionService.DeleteTransaction` | finance_app.py:153-164 | returns whether the id was present, and leaves the list as `DeletedFirst` describes |
| `Ledger.DeleteTwiceFindsNothing` | finance_app.py:153-164 | with unique ids, a second delete of the same id finds nothing |
| `Ledger.SequentialIndex` | finance_app.py:153-158 | in a list built by creates alone, the record with id number n sits at position n - 1 |
| `Ledger.SequentialDelete` | finance_app.py:153-164 | in such a list, deleting id number n removes exactly position n - 1 |
| `Ledger.DeleteThenCreateCollides` | finance_app.py:114-164 | after deleting any record but the last, the next create reuses the last record's id, and lookups of that id find the older record |
| `Scenarios.FirstIds` | finance_app.py:118 | the first three ids are `T000001`, `T000002` and `T000003` |
| `Scenarios.IdCollision` | finance_app.py:114-164 | create three, delete `T000002`, create one: the ids are `T000001`, `T000003`, `T000003` |
| `Text.NatText` | finance_app.py:118 | the decimal digits of n, with no leading zero except for n = 0, one digit exactly when n < 10 |
| `Text.ZeroPad` | finance_app.py:118 | padding to a width keeps the digits' value and gives at least that width |
| `Text.LeadingZeros` | finance_app.py:118 | leading zeros do not change a digit string's value |
| `Text.Lower` | finance_app.py:207-208 | same length; each upper-case ASCII letter becomes its lower-case letter and every other character is kept |
| `Text.LowerIdempotent` | finance_app.py:207-208 | lowering twice is lowering once |
| `Text.LowerChanges` | finance_app.py:207-208 | lowering changes a string only at an upper-case ASCII letter, which becomes a lower-case one |
| `Text.AbsentCharNoMatch` | finance_app.py:207-209 | a pattern holding a character the text lacks is not `in` it |
| `Text.ContainsIffOccurs` | finance_app.py:207-209 | the `in` test holds exactly when the pattern occurs at some position |
| `Text.AmountText` | finance_app.py:209 | the decimal text reads back as the amount it was made from |
| `Text.AmountValueNumeric` | finance_app.py:209 | such a text is made of digits, "." and "-" only |
| `Queries.KeywordCaseInsensitive` | finance_app.py:205-209 | the keyword test gives the same answer for a keyword and its lower-case form, the amount test included |
| `Dates.Parse` | finance_app.py:180-181 | whatever `strptime` accepts is a valid calendar day |
| `Dates.Format` | finance_app.py:180-185 | every valid day has a ten-character `YYYY-MM-DD` spelling that parses back to it |
| `Dates.Le` | finance_app.py:186 | on valid days, `<=` of datetimes is the order of the YYYYMMDD numbers |
| `Queries.Filter` | finance_app.py:206-234 | a list comprehension's result: an order-kept sub-list of the input holding exactly the records that pass the test |
| `Queries.FilterCounts` | finance_app.py:206-234 | a record that passes is kept as often as it occurs in the input; one that fails, not at all |
| `Queries.FilterKeepsAll` | finance_app.py:184-187 | a test every record passes keeps the whole list |
| `Queries.FilterLast` | finance_app.py:184-187 | filtering extends record by record, the shape of the source's loops |
| `FinanceApp.TransactionService.GetTransactionsByDateRange` | finance_app.py:177-192 | the loop returns `ByDateRange`: [] on any unparsable bound or stored date, otherwise the records dated within both bounds inclusive, in order |
| `Queries.ByDateRange` | finance_app.py:177-192 | an order-kept sub-list of the list. It is empty when a bound or a stored date does not parse; otherwise each record dated within both bounds, inclusive, is kept as often as it occurs, and no other record is |
| `Queries.Prefiltered` | finance_app.py:204-217 | keyword, type and category filters: an order-kept sub-list keeping every copy of exactly the records passing the filters switched on |
| `Queries.DateStage` | finance_app.py:219-227 | the date filter applies only when both bounds are given and parse and every remaining date parses, and then keeps every copy of exactly the records within the bounds; otherwise the list passes through |
| `Queries.MinStage` | finance_app.py:229-231 | with a minimum, every copy of exactly the records whose amount reaches it; without, the list unchanged |
| `Queries.MaxStage` | finance_app.py:233-234 | with a maximum, every copy of exactly the records whose amount does not exceed it; without, the list unchanged |
| `Queries.AmountStage` | finance_app.py:229-234 | the minimum and maximum filters, each only when given, both inclusive, copies kept |
| `Queries.Search` | finance_app.py:194-236 | the search returns an order-kept sub-list of the records that keeps every copy of exactly the records passing every active filter |
| `Queries.KeywordOnlySearch` | finance_app.py:205-209 | a search by keyword alone finds exactly the records the keyword test accepts |
| `Queries.KindOnlySearch` | finance_app.py:212-213 | a search by type alone finds exactly the records of that type |
| `Queries.CategoryOnlySearch` | finance_app.py:216-217 | a search by category alone finds exactly the records of that category |
| `Queries.DatesOnlySearch` | finance_app.py:220-227 | when every date parses, a search by dates alone finds exactly the records within the bounds, or every record when the bounds are missing or do not parse |
| `Queries.MinOnlySearch` | finance_app.py:230-231 | a search by minimum alone finds exactly the records at or above it |
| `Queries.MaxOnlySearch` | finance_app.py:233-234 | a search by maximum alone finds exactly the records at or below it |
| `Queries.SearchIsIntersection` | finance_app.py:194-236 | when every stored date parses, the combined search equals the intersection of the six single-filter searches |
| `FinanceApp.TransactionService.SearchTransactions` | finance_app.py:194-236 | the staged search over the current list: an order-kept sub-list keeping every copy of exactly the records that match the query |
| `Statistics.SumAppend` | finance_app.py:267 | the sum grows by the appended amount |
| `Statistics.SumAmounts` | finance_app.py:267 | the sum of no records is 0, and a sum of non-negative amounts is non-negative |
| `Statistics.TotalOfKind` | finance_app.py:264-274 | the sum over the records of the type: 0 when none has it, non-negative when none of them has a negative amount |
| `Statistics.TotalOfKindStep` | finance_app.py:264-274 | the total of one type grows by a record's amount exactly when the record has that type |
| `Statistics.NetIsSignedSum` | finance_app.py:276-280 | income minus expense equals the sum of incomes counted positive and expenses counted negative |
| `FinanceApp.StatisticsService.constructor` | finance_app.py:261-262 | the service reads the transaction service it was given |
| `FinanceApp.StatisticsService.InRange` | finance_app.py:266 | the records every statistic starts from are the date-range query over the service's list, an order-kept sub-list of it |
| `FinanceApp.StatisticsService.CalculateTotalIncome` | finance_app.py:264-268 | the sum of the income amounts in the range: 0 when it has no income record, non-negative when no income amount is negative |
| `FinanceApp.StatisticsService.CalculateTotalExpense` | finance_app.py:270-274 | the sum of the expense amounts in the range: 0 when it has no expense record, non-negative when no expense amount is negative |
| `FinanceApp.StatisticsService.CalculateNetBalance` | finance_app.py:276-280 | the net balance over a range is that signed sum over the range's records |
| `Statistics.CategoryTotals` | finance_app.py:287-295 | every category of the list gets an entry |
| `Statistics.CategoryTotalsKeys` | finance_app.py:287-295 | the dictionary's keys are exactly the categories occurring in the list |
| `Statistics.NoCategoryNoRecords` | finance_app.py:287-295 | a category without an entry has no records |
| `Statistics.CategoryTotalsOfKindKeys` | finance_app.py:284-295 | after filtering by type, the keys are exactly the categories of records of that type |
| `Statistics.CategoryTotalsValue` | finance_app.py:287-295 | each category's value is the sum of that category's amounts |
| `Statistics.MapSumRemove` | finance_app.py:287-295 | the sum of a dictionary's values splits off any one key |
| `Statistics.MapSumAdd` | finance_app.py:290-293 | adding to a key, or creating it, raises the sum of values by that amount |
| `Statistics.CategoryTotalsSum` | finance_app.py:287-295 | the per-category values add up to the total amount |
| `FinanceApp.StatisticsService.CategoryStats` | finance_app.py:282-310 | the loop builds the per-category totals of the records of one type in the range. The keys are exactly the categories occurring, and the values add up to that type's total |
| `FinanceApp.StatisticsService.SumByCategory` | finance_app.py:287-293 | the dictionary loop builds exactly `CategoryTotals` of the records it walks |
| `FinanceApp.StatisticsService.GetIncomeCategoryStats` | finance_app.py:282-295 | the per-category totals of income; they add up to `calculate_total_income` over the same range |
| `FinanceApp.StatisticsService.GetExpenseCategoryStats` | finance_app.py:297-310 | the per-category totals of expense; they add up to `calculate_total_expense` over the same range |
| `Statistics.KindCounts` | finance_app.py:315-316 | income count plus expense count never exceeds the list length, and equals it when every record is one of the two types |
| `FinanceApp.StatisticsService.GetTransactionCountByType` | finance_app.py:312-322 | keys "收入", "支出" and "总计"; the first two are the numbers of income and of expense records in the range, "总计" the number of all of them; the two type counts add up to at most it, exactly it when every record has one of the two types |
| `Scenarios.JanuaryTotals` | finance_app.py:264-280 | three January records give income 6000.00, expense 300.00 and net 5700.00 over 2024-01-01..2024-01-31 |
| `Scenarios.JanuaryBounds` | finance_app.py:180-181 | `strptime` reads "2024-01-01" and "2024-01-31" as the first and last day of January 2024 |
| `Scenarios.JanuaryInRange` | finance_app.py:177-192 | every record of that walk-through lies within January |
| `Scenarios.InJanuary` | finance_app.py:184-186 | a record dated on a day of January 2024 passes the month's date test |
| `Scenarios.JanuaryIncome` | finance_app.py:264-268 | the income total of those records is 6000.00 |
| `Scenarios.JanuaryExpense` | finance_app.py:270-274 | the expense total of those records is 300.00 |

## Left out

- File input and output: `save_categories`, `save_transactions`, `load_categories` and `load_transactions` read and write JSON files. Saving leaves the in-memory state unchanged and is not modelled as a side effect. Loading is the constructors' `stored` argument (None or an empty map when no file exists). JSON text itself is not modelled; records are maps from keys to text or number values.
- Float arithmetic: amounts are exact integer cents, so rounding in `sum()` and in comparisons of floats is not modelled.
- Text.AmountText: `str()` of a float is modelled as the shortest decimal form of cents / 100, which matches Python only for |cents| < 10^15 (at most fifteen digits in all); larger amounts switch to exponent notation in Python.
- Dates.Parse: `\d` in Python's regular expressions also matches non-ASCII decimal digits; the model accepts only ASCII digits.
- Text.Lower: only ASCII letters are lowered; Python's full Unicode case mapping is not modelled.
- Transactions.FromDict: a present key whose value has the wrong kind (a number where text is expected, or the reverse) is rejected. Python would build a record holding that value anyway.
- Aliasing: records are values, so the source's object identity is not modelled. In the source, `get_transaction_by_id`, `get_all_transactions` and `search_transactions` hand out live objects or the live list, which a caller can then change.
- `get_all_transactions` is the `transactions` field itself and has no member of its own.
- The `except Exception` branches of `create_transaction`, `update_transaction` and `delete_transaction` are not modelled. `save_transactions` catches its own exceptions (finance_app.py:244-245), so on in-memory data these branches are reached only if printing that error message itself raises.
- Error messages printed to the console are not modelled.
- The Tk user interface (`BaseScreen`, the screens and `PersonalFinanceApp`) and `main.py` are outside this model.
- Behaviour that only the test files expect, such as rejecting non-positive amounts or a budget service, is not in `finance_app.py` and is not modelled.
