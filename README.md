# Five console tools, modelled in Dafny

This project models the decision logic of five small console programs:

- **Student gradebook** (`exercise_1`). A dictionary from student name to that student's grades. It supports adding students, adding grades from 0 to 100, a per-student report with its letter grade, and class statistics: the class average, plus the top and lowest students.
- **Inventory manager** (`exercise_2`). A dictionary from item name to price, stock count and category. It supports adding items, adjusting stock by a signed quantity, searching by category, listing the items at or below 5 units, and the total value of the stock.
- **Password analyzer** (`exercise_3`). Six criteria, each worth 20 points:
  - length of at least 8;
  - an upper-case letter;
  - a lower-case letter;
  - a digit;
  - one of `!@#$%^&*`;
  - not one of 22 common passwords, compared after lower-casing.

  The analyzer maps the score to a five-step strength ladder, returns one result line per criterion, and gives advice for each failed criterion.
- **Quiz master** (`exercise_4`). A bank of three categories, each with an easy and a hard list of five questions. It grades each typed answer as correct, wrong or skipped, adds 10 points per correct answer, logs the wrong questions, and keeps a personal best per category and difficulty.
- **Budget tracker** (`exercise_5`). A ledger from month key to a record of income, expenses and budget limits, each a dictionary from category to amount. It supports:
  - adding income and expenses, which accumulate;
  - setting limits, which replace the old limit;
  - validating a `YYYY-MM` month key;
  - the monthly summary: totals, net savings, savings percentage, the expense breakdown and overrun alerts;
  - the spending trend between two months.

Python dictionaries keep insertion order, and the outputs depend on it. Examples are the breakdown, the alerts, the search results, the low-stock list and which student is named best or worst. For that reason `Dicts.Dict` is a sequence of distinct keys plus a map. `Text` gives Python's `strip`, `upper` and `lower`.

Objects that the programs update in place are classes whose methods are proved against pure functions:

- `StudentGradebook.Gradebook`
- `InventoryManager.Inventory`
- `BudgetTracker.Ledger`
- `QuizMaster.HighScores`

The loops that compute a value are methods with loop invariants: the class statistics and the quiz round. The password analysis is a method too. It applies the six criteria one after another, with no loop, and is proved against the functions `Score`, `Checks`, `Advice` and `StrengthOf`. The summary and the trends only read the ledger, so they are pure functions.

A number the program parses with `float()` or `int()` arrives as an `Option`. `None` is the `ValueError` branch.

## Model

| member | source | states |
|---|---|---|
| Text.Strip | exercise_2/inventory_manager.py:7 | the result has no whitespace at either end |
| Text.StripSlice | exercise_2/inventory_manager.py:7 | the result is a slice of the input that drops only whitespace on each side |
| Text.StripTrimmed | exercise_2/inventory_manager.py:35 | stripping a string with no outer whitespace returns it unchanged |
| Text.StripIdempotent | exercise_2/inventory_manager.py:35 | stripping twice is stripping once |
| Text.Upper | exercise_4/quiz_master.py:112 | same length, each character upper-cased |
| Text.UpperLetter | exercise_4/quiz_master.py:112-116 | upper-casing a lower-case letter subtracts 32 from its code and gives `A`..`Z` |
| Text.Lower | exercise_3/password_manager.py:60 | same length, each character lower-cased |
| Text.LowerIdempotent | exercise_3/password_manager.py:60 | lower-casing twice is lower-casing once |
| Dicts.Put | exercise_2/inventory_manager.py:15 | stores the value under the key; a new key goes last, an existing key keeps its place, and keys stay distinct |
| Dicts.PutPut | exercise_5/budget_tracker.py:66 | a second store to the same key overwrites the first |
| Dicts.PutSum | exercise_2/inventory_manager.py:58 | the sum over the values after a store loses the old value and gains the new one |
| Dicts.SumOverNonNegative | exercise_5/budget_tracker.py:76-77 | a sum of non-negative amounts is non-negative |
| Dicts.Where | exercise_2/inventory_manager.py:36 | exactly the keys whose value passes the filter, in insertion order |
| StudentGradebook.LetterGrade | exercise_1/student_gradebook.py:2-12 | F exactly for an average below 60; the other bands are stated by `LetterBands` |
| StudentGradebook.LetterBands | exercise_1/student_gradebook.py:2-12 | A, B, C, D and F each hold exactly on their band: at least 90, [80, 90), [70, 80), [60, 70), below 60 |
| StudentGradebook.LetterMonotone | exercise_1/student_gradebook.py:2-12 | a higher average never gets a worse letter |
| StudentGradebook.SumBounds | exercise_1/student_gradebook.py:49 | n grades within [lo, hi] sum to between n·lo and n·hi |
| StudentGradebook.Mean | exercise_1/student_gradebook.py:49 | the mean taken once per grade adds up to the sum of the grades |
| StudentGradebook.MeanBounds | exercise_1/student_gradebook.py:49 | the mean of grades within [lo, hi] is within [lo, hi] |
| StudentGradebook.Max | exercise_1/student_gradebook.py:67 | the result is an element and no element is larger |
| StudentGradebook.Min | exercise_1/student_gradebook.py:68 | the result is an element and no element is smaller |
| StudentGradebook.MeanBetween | exercise_1/student_gradebook.py:66-68 | the mean lies between the minimum and the maximum |
| StudentGradebook.Gradebook.constructor | exercise_1/student_gradebook.py:81 | starts with no students |
| StudentGradebook.Gradebook.AddStudent | exercise_1/student_gradebook.py:15-21 | a duplicate name is refused with nothing changed; a new name goes last with no grades |
| StudentGradebook.Gradebook.AddGrade | exercise_1/student_gradebook.py:24-37 | unknown student, unparsable grade, or grade outside [0, 100]: that outcome and no change; otherwise the grade is appended to that student only; every grade stays in [0, 100] |
| StudentGradebook.Gradebook.ClassStatistics | exercise_1/student_gradebook.py:55-77 | no statistics exactly when nobody has grades; otherwise exactly `StatsOf` of the gradebook |
| StudentGradebook.StudentReport | exercise_1/student_gradebook.py:40-52 | unknown name exactly when absent; no grades exactly when the list is empty; otherwise the average is the mean of that student's grades and the letter is the letter of that average |
| StudentGradebook.ReportInRange | exercise_1/student_gradebook.py:31-49 | since only grades in [0, 100] are stored, every reported average is in [0, 100] |
| StudentGradebook.AveragesOver | exercise_1/student_gradebook.py:57-60 | a value is listed exactly when some listed student with grades has that average |
| StudentGradebook.AveragesInOrder | exercise_1/student_gradebook.py:57-60 | exactly one average per student with grades, in the order the students were added, each the mean of that student's grades |
| StudentGradebook.GradedHaveAverages | exercise_1/student_gradebook.py:57-60 | every student with grades contributes an average |
| StudentGradebook.NoAveragesIffNoGrades | exercise_1/student_gradebook.py:57-64 | the "no grades available" outcome happens exactly when no student has a grade |
| StudentGradebook.FirstWith | exercise_1/student_gradebook.py:71-72 | the first position whose student has the target average; no earlier student has it |
| StudentGradebook.AverageHasStudent | exercise_1/student_gradebook.py:71-72 | a listed average always belongs to some student, so the name lookup finds one |
| StudentGradebook.StatsOf | exercise_1/student_gradebook.py:62-77 | the class average is the mean of the per-student averages; lowest ≤ class average ≤ highest; every student's average lies between them; best and worst are the first students in insertion order with the highest and lowest averages |
| StudentGradebook.TwoStudentsAverages | exercise_1/student_gradebook.py:57-60 | Ann [90] and Bob [60, 60, 60] give averages [90, 60] in insertion order |
| StudentGradebook.ClassAverageOfAverages | exercise_1/student_gradebook.py:66 | the class average is the mean of the students' averages (75), not of all grades (67.5) |
| StudentGradebook.TwoStudentsRanking | exercise_1/student_gradebook.py:67-72 | for that gradebook the top student is Ann and the lowest Bob |
| InventoryManager.Inventory.constructor | exercise_2/inventory_manager.py:63 | starts empty |
| InventoryManager.Inventory.AddItem | exercise_2/inventory_manager.py:6-18 | duplicate name, or unparsable price or stock: that outcome and no change; otherwise the item goes last |
| InventoryManager.Inventory.UpdateStock | exercise_2/inventory_manager.py:21-31 | unknown name or unparsable quantity: that outcome and no change; otherwise only that item's stock moves by the quantity, with no lower bound |
| InventoryManager.Restocked | exercise_2/inventory_manager.py:28 | the price and category are kept; the stock changes by exactly the quantity |
| InventoryManager.RestockedUndo | exercise_2/inventory_manager.py:28 | removing the quantity just added restores the item |
| InventoryManager.LowStock | exercise_2/inventory_manager.py:47-54 | exactly the items with at most 5 units, in insertion order |
| InventoryManager.SearchByCategory | exercise_2/inventory_manager.py:34-44 | exactly the items whose category equals the stripped query, in insertion order |
| InventoryManager.SearchIgnoresPadding | exercise_2/inventory_manager.py:35 | padding the query with whitespace changes nothing |
| InventoryManager.TotalValue | exercise_2/inventory_manager.py:57-58 | never negative while no price or stock count is; how it changes is stated by `TotalAfterAdd` and `TotalAfterRestock` |
| InventoryManager.EmptyWorthNothing | exercise_2/inventory_manager.py:57-59 | an empty inventory is worth 0 |
| InventoryManager.TotalAfterAdd | exercise_2/inventory_manager.py:15 | adding an item raises the total by price × stock |
| InventoryManager.TotalAfterRestock | exercise_2/inventory_manager.py:28 | a stock change of q raises the total by price × q |
| InventoryManager.LowStockAfterRestock | exercise_2/inventory_manager.py:48 | after a restock the item is low exactly when its new count is at most 5; no other item changes status |
| PasswordManager.PassesTests | exercise_3/password_manager.py:19-60 | what `Passes` tests for each criterion: length at least 8; some character in `A`..`Z`; some in `a`..`z`; some in `0`..`9`; some among `!@#$%^&*`; the lower-cased password not in the list, which is what `IsCommon` (line 60) decides |
| PasswordManager.Score | exercise_3/password_manager.py:15-66 | a multiple of 20 between 0 and 120 |
| PasswordManager.StrengthOf | exercise_3/password_manager.py:68-78 | each rung exactly on its band: Weak up to 40, Fair above 40 up to 60, Good above 60 up to 80, Strong above 80 up to 100, Excellent above 100 |
| PasswordManager.Advice | exercise_3/password_manager.py:17-66 | at most seven suggestions; the common-password advice appears exactly when the password is common |
| PasswordManager.Checks | exercise_3/password_manager.py:16-64 | six result lines, one per criterion in the order they are checked |
| PasswordManager.ResultLine | exercise_3/password_manager.py:22-64 | each result line starts with a tick when the criterion passed and a cross when it failed |
| PasswordManager.ChecksFollowCriteria | exercise_3/password_manager.py:19-66 | six result lines, the i-th reporting whether the i-th criterion passed |
| PasswordManager.ScoreCountsCriteria | exercise_3/password_manager.py:19-66 | the score is 20 × the number of criteria met: a multiple of 20 between 0 and 120 |
| PasswordManager.AdviceCount | exercise_3/password_manager.py:19-66 | one suggestion per failed criterion plus one more for a common password; no advice exactly when the score is 120 |
| PasswordManager.ExcellentIffFull | exercise_3/password_manager.py:68-78 | Excellent exactly when all six criteria pass |
| PasswordManager.StrengthMonotone | exercise_3/password_manager.py:68-78 | a higher score never gives a lower strength |
| PasswordManager.CommonNeverExcellent | exercise_3/password_manager.py:59-66 | a password whose lower-case form is listed fails that criterion and scores at most 100 |
| PasswordManager.ExcellentIffNoAdvice | exercise_3/password_manager.py:59-78 | Excellent exactly when there are no suggestions |
| PasswordManager.LongNeverCommon | exercise_3/password_manager.py:6-11 | no password longer than 10 characters is listed |
| PasswordManager.StrongExample | exercise_3/password_manager.py:19-66 | `Tr0ub4dor&3` meets all six criteria |
| PasswordManager.CommonExample | exercise_3/password_manager.py:60 | `PassWord` is long enough but, lower-cased, is a listed common password |
| PasswordManager.AnalyzePassword | exercise_3/password_manager.py:14-80 | the score, strength, six result lines and suggestions are those of the criteria above |
| QuizMaster.ScienceWellFormed | exercise_4/quiz_master.py:7-22 | both Science lists have five questions, four options each, and an answer index in range |
| QuizMaster.HistoryWellFormed | exercise_4/quiz_master.py:23-38 | the same for History |
| QuizMaster.SportsWellFormed | exercise_4/quiz_master.py:39-54 | the same for Sports |
| QuizMaster.BankWellFormed | exercise_4/quiz_master.py:6-55 | every category and difficulty pair in the bank is a well-formed five-question list |
| QuizMaster.Typed | exercise_4/quiz_master.py:112 | as long as the stripped input, since upper-casing keeps the length |
| QuizMaster.AnswerIndex | exercise_4/quiz_master.py:115-116 | an index exactly when one character was typed; the index is its offset from `A` |
| QuizMaster.Grade | exercise_4/quiz_master.py:115-125 | skipped exactly when the typed answer is not one character |
| QuizMaster.CorrectIffLetter | exercise_4/quiz_master.py:115-125 | correct exactly when the typed text is the right option's letter |
| QuizMaster.TypedLetter | exercise_4/quiz_master.py:112 | a single lower-case letter is read as its upper-case form |
| QuizMaster.LowerCaseAnswer | exercise_4/quiz_master.py:112-119 | a typed lower-case letter is graded as its capital: correct exactly when it names the answer, never skipped |
| QuizMaster.LongAnswerSkipped | exercise_4/quiz_master.py:112-125 | anything but one character after stripping is skipped, neither right nor wrong |
| QuizMaster.CorrectCount | exercise_4/quiz_master.py:117-119 | never more correct answers than questions |
| QuizMaster.WrongLog | exercise_4/quiz_master.py:121-123 | never more logged questions than questions, and each one comes from the quiz |
| QuizMaster.OutcomesPartition | exercise_4/quiz_master.py:115-125 | correct, wrong and skipped counts add up to the number of questions |
| QuizMaster.WrongLogOnlyWrong | exercise_4/quiz_master.py:121-123 | every logged question is one that was answered wrongly |
| QuizMaster.AllRightFullMarks | exercise_4/quiz_master.py:117-123 | all answers right gives full marks and an empty wrong log |
| QuizMaster.AskAll | exercise_4/quiz_master.py:103-129 | each answer line is graded after `Typed`; score = 10 × correct answers, between 0 and 10 × questions; the wrong log is the wrong questions in order |
| QuizMaster.UpdateBest | exercise_4/quiz_master.py:132-134 | a new key gets the score; an existing key keeps its best or takes the score, whichever is larger; other keys are untouched |
| QuizMaster.BestNeverDecreases | exercise_4/quiz_master.py:133-134 | no personal best ever goes down |
| QuizMaster.UpdateBestIdempotent | exercise_4/quiz_master.py:133-134 | recording the same score twice is recording it once |
| QuizMaster.HighScores.constructor | exercise_4/quiz_master.py:80 | starts from the loaded high scores |
| QuizMaster.HighScores.Record | exercise_4/quiz_master.py:132-138 | reports a new best exactly when the key is new or the score beats it; stores per `UpdateBest` |
| QuizMaster.HighScores.Quiz | exercise_4/quiz_master.py:79-138 | an unknown category or difficulty ends with high scores untouched; otherwise 10 points per correct answer, the wrong log, a new best reported exactly when the key `category_difficulty` is new or beaten, and the updated best |
| BudgetTracker.IsMonthKey | exercise_5/budget_tracker.py:25 | an accepted key is six or seven characters with no outer whitespace; `MonthKeyExamples` pins accepted and refused keys |
| BudgetTracker.MonthNumber | exercise_5/budget_tracker.py:25 | an accepted key's month is between 1 and 12 |
| BudgetTracker.ReadMonth | exercise_5/budget_tracker.py:21-28 | input is accepted exactly when its stripped form is a valid `%Y-%m` key, and the key returned is that stripped text itself |
| BudgetTracker.ReadMonthStable | exercise_5/budget_tracker.py:23-26 | reading an accepted key again gives the same key |
| BudgetTracker.MonthKeyExamples | exercise_5/budget_tracker.py:25 | `2024-1` and `2024-01` are both accepted, as the same month but different keys; month 13, month 0, year 0 and a two-digit year are refused |
| BudgetTracker.CreditRecordEntries | exercise_5/budget_tracker.py:45-48 | crediting changes only that kind's category, adding to it from 0 if new |
| BudgetTracker.Credit | exercise_5/budget_tracker.py:43-48 | the ledger stays well formed |
| BudgetTracker.Cap | exercise_5/budget_tracker.py:63-66 | the ledger stays well formed |
| BudgetTracker.CreditAccumulates | exercise_5/budget_tracker.py:43-48 | the month now exists; the amount adds to that category's running total; every other amount, limit and month is unchanged |
| BudgetTracker.CreditCreatesRecord | exercise_5/budget_tracker.py:43-46 | the first entry for a month creates a record holding just that category |
| BudgetTracker.CapReplaces | exercise_5/budget_tracker.py:63-66 | the limit is replaced, not added to; no amount or other limit changes |
| BudgetTracker.CapRecordParts | exercise_5/budget_tracker.py:66 | only the limits of the record change |
| BudgetTracker.CapOverwrites | exercise_5/budget_tracker.py:66 | setting a limit twice keeps the second; setting the same limit twice is setting it once |
| BudgetTracker.CapCreatesRecord | exercise_5/budget_tracker.py:63-66 | the first limit for a month creates a record with empty income and expenses |
| BudgetTracker.CreditKeepsConsistent | exercise_5/budget_tracker.py:35-48 | accepted (non-negative) entries keep every amount and limit non-negative |
| BudgetTracker.CapKeepsConsistent | exercise_5/budget_tracker.py:56-66 | accepted (non-negative) limits keep every amount and limit non-negative |
| BudgetTracker.Replay | exercise_5/budget_tracker.py:31-49 | a session of entries keeps the ledger well formed |
| BudgetTracker.ReplaySums | exercise_5/budget_tracker.py:31-49 | after any session a category holds its start plus the sum of the accepted amounts entered for it |
| BudgetTracker.Ledger.constructor | exercise_5/budget_tracker.py:160 | starts from the loaded ledger |
| BudgetTracker.Ledger.AddEntry | exercise_5/budget_tracker.py:31-49 | unparsable or negative amount: that outcome and no change, not even a new month; otherwise the ledger becomes `Credit` of the old one |
| BudgetTracker.Ledger.SetBudgetLimit | exercise_5/budget_tracker.py:52-67 | unparsable or negative limit: that outcome and no change; otherwise the ledger becomes `Cap` of the old one; a limit of 0 is accepted |
| BudgetTracker.PercentOfLimitAsWritten | exercise_5/budget_tracker.py:102 | a zero limit raises division by zero; otherwise the percentage × limit = spent × 100 |
| BudgetTracker.PercentOfLimit | exercise_5/budget_tracker.py:99-102 | no percentage exactly for a zero limit; otherwise percentage × limit = spent × 100, above 100 whenever spending is over a positive limit |
| BudgetTracker.Overruns | exercise_5/budget_tracker.py:96-103 | an alert for every limited category whose spending (0 if none) exceeds its limit, and for no other, with the amount over and the guarded percentage; the alerts follow the order of the limits |
| BudgetTracker.AlertsOncePerCategory | exercise_5/budget_tracker.py:97-103 | since a dictionary lists each category once, no category alerts twice |
| BudgetTracker.Summarize | exercise_5/budget_tracker.py:70-73 | "no data" exactly when the month has no record |
| BudgetTracker.SummaryContents | exercise_5/budget_tracker.py:75-103 | totals of income and expenses; net savings their difference; savings percentage 0 without income, otherwise net as a share of income; one breakdown line per expense category in order; alerts exactly for overspent limits |
| BudgetTracker.Percent | exercise_5/budget_tracker.py:84-90 | 0 for a zero whole; otherwise percentage × whole = part × 100 |
| BudgetTracker.Breakdown | exercise_5/budget_tracker.py:89-92 | one line per expense category |
| BudgetTracker.BreakdownLines | exercise_5/budget_tracker.py:89-92 | one line per category, in order, with its amount and share |
| BudgetTracker.BreakdownSum | exercise_5/budget_tracker.py:89-90 | the shares add up to the share of the sum |
| BudgetTracker.SharesAddUpTo100 | exercise_5/budget_tracker.py:89-90 | with non-zero expenses the breakdown percentages add up to 100 |
| BudgetTracker.SavingsPercentAtMost100 | exercise_5/budget_tracker.py:84 | with non-negative amounts, savings are never more than 100 percent of income |
| BudgetTracker.EmptyRecordSummary | exercise_5/budget_tracker.py:75-105 | a fresh record summarises to zeros, an empty breakdown and no alerts |
| BudgetTracker.TotalAfterCredit | exercise_5/budget_tracker.py:48 | recording an amount raises that kind's total by the amount |
| BudgetTracker.AlertExample | exercise_5/budget_tracker.py:97-103 | Food 100 against a limit of 80 gives one alert, 20 over, at 125 percent |
| BudgetTracker.ZeroLimitDividesByZero | exercise_5/budget_tracker.py:99-102 | as written, spending against a zero limit takes the alert branch and divides by zero |
| BudgetTracker.ZeroLimitAlertReported | exercise_5/budget_tracker.py:99-103 | with the guard, the same ledger yields an alert 5 over with no percentage |
| BudgetTracker.Compare | exercise_5/budget_tracker.py:122-123 | the difference is non-negative, and "No Change" exactly when it is 0 |
| BudgetTracker.CompareRoundTrip | exercise_5/budget_tracker.py:122-123 | the first month's spending plus the signed trend gives the second month's |
| BudgetTracker.CompareSwapped | exercise_5/budget_tracker.py:122-123 | swapping the months keeps the size and reverses the sign |
| BudgetTracker.AnalyzeTrends | exercise_5/budget_tracker.py:108-124 | nothing when either month is missing; otherwise, for every category spent on in either month, `Compare` of its spending in the two months (a missing side counts as 0), which leads from the first month's spending to the second's |
| BudgetTracker.TrendExample | exercise_5/budget_tracker.py:117-124 | Food 50 → 80 and Transport missing → 20 both show as increased, by 30 and 20 |

## Left out

- Console menus, prompts and printing are not modelled. This includes the progress bar, the bar charts, currency formatting and the review of wrong answers. The model returns the values those lines print. The password analyzer's result-line and suggestion texts are kept as `ResultLine` and `SuggestionText`, but nothing is printed.
- File persistence is not modelled: loading and saving `budget_data.json` and `high_scores.json`, and `export_summary`. The loaded dictionary becomes a constructor argument. `export_summary` computes the same figures as `show_summary`.
- The clock is not modelled: the elapsed time per quiz question is only printed.
- Floats are exact reals, so rounding in sums, averages and percentages is not modelled. `float()`/`int()` parsing is an `Option` argument whose `None` stands for `ValueError`. `float()` also accepts `nan` and `inf`, which the model does not represent.
- Upper- and lower-casing and the regex classes `[A-Z]`, `[a-z]` and `\d` are ASCII only. Python's Unicode case mapping and Unicode digits are outside the model.
- Names, categories, quiz category and difficulty strings, and month keys arrive already stripped, as each prompt strips them. The exceptions are the inventory search query, which is stripped inside `SearchByCategory`, the month input, which is stripped inside `ReadMonth`, and each quiz answer, which is stripped and upper-cased by `Typed` inside the grading.
- Python's `max`/`min` over `(average, grades)` pairs break ties by comparing grade lists. That choice only affects which pair is picked, not the average it carries, and names are looked up by average, so the model compares averages alone.
- The trend loop iterates over a Python set, whose order is not fixed. `AnalyzeTrends` therefore returns a map from category to trend.
- A stored record missing its `income`, `expenses` or `limits` key is not modelled. Every record has all three, as every record the program creates does.
- Behaviours of the code worth noting:
  - `strptime("%Y-%m")` also accepts one-digit months such as `2024-1`, which is a different key from `2024-01`.
  - `if income_total` tests for a non-zero total, not a positive one.
  - Empty category names are stored like any other.

## Findings

| source | as written | input that shows it | evidently intended | confidence | as-written member | corrected member |
|---|---|---|---|---|---|---|
| exercise_5/budget_tracker.py:102 | a limit of 0 is accepted, and any spending against it reaches `(spent / limit) * 100` | limit 0 for Food in 2024-01, then an expense of 5 for Food, then the summary | report the overrun without a percentage | not executed | BudgetTracker.ZeroLimitDividesByZero | BudgetTracker.ZeroLimitAlertReported |
