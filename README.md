# Invoice aggregation of the hotel-booking invoice generator

This project models the financial core of a Django application that produces
hotel-booking invoices as PDFs. A posted form carries two tables as
parallel per-field lists. The reservation table has a number, hotel, check-in,
check-out and total per line. The payment table has a reservation number,
date, method, amount, currency, exchange rate and note per line. The core:

- zips each table's lists into lines, stopping at the shortest list;
- trims text fields, turning blank ones into `"-"`;
- reads `YYYY-MM-DD` dates, where a blank or rejected date becomes `None`;
- rounds totals to whole SAR with Python's `round` (half to even);
- converts every payment to SAR (`convert_to_sar`);
- sums the SAR amounts per normalised reservation number
  (`payments_by_reservation`);
- gives each reservation its remaining balance and a paid / unpaid / partial
  status;
- computes the invoice's grand totals.

Beside it sit these helpers:

- `invoices/utils.py`: currency conversion, `YYYY-MM-DD` to `DD/MM/YYYY`
  reformatting and thousand-separator formatting;
- `config/env_config.py`: parsers of environment values, with the environment
  passed as a `map<string, string>`.

Modules:

- `Options` holds the Option type.
- `Text` holds the Python `str` operations the code relies on:
  - `isspace` and `strip`;
  - ASCII `upper`/`lower`;
  - `split(',')`;
  - the digits of `str(int)`;
  - `replace(",", "")`, which the source never calls. The model uses it only
    to state what the thousand-separated totals read back as.
- `InvoiceUtils` holds `invoices/utils.py`, plus Python's `round` and
  `datetime.strptime(s, "%Y-%m-%d")`, which both source files use.
- `EnvConfig` holds `config/env_config.py`.
- `InvoiceViews` holds the aggregation of `invoices/views.py`.

`process_reservations`, `process_payments` and
`calculate_remaining_per_reservation` are loops. They are Dafny methods with
`while` loops over local sequences and a local map. Each is proved against a
specification function of its input lines: `ReservationList`, `LinesTotal`,
`PaymentList`, `PaidTotal`, `PaidByReservation` and `BalanceList`. The
properties the source promises are lemmas about those functions. The
`utils.py` and `env_config.py` helpers are pure and are modelled as
functions.

Numeric form fields arrive as what `float(x.strip())` makes of them. The type
`NumberText` has three cases:

- `Blank`: the field is empty or whitespace only.
- `Number(v)`: `float()` reads the exact real `v`.
- `Unreadable`: `float()` raises ValueError.

The source does not catch that ValueError: `float()` at `invoices/views.py`
lines 121, 176 and 177 is outside any `try`. So the model ends processing with
`ValueError(line)` at the first such line instead of reading the field as 0.
This follows the code.

## Model

| member | source | states |
|---|---|---|
| Text.IsSpace | invoices/views.py:121-139 | definition of the characters Python's `str.isspace` accepts; `Strip` and `StripParts` state what stripping them does |
| Text.IsBlank | invoices/views.py:121-139 | definition of the `x and x.strip()` test failing: the text is empty or whitespace only; `Strip` states that it is blank exactly when `strip()` empties it |
| Text.Strip | invoices/views.py:135 | `strip()` gives the empty text exactly when the text is blank; otherwise the result starts and ends with a non-space |
| Text.StripParts | invoices/views.py:135 | the text is whitespace, then its stripped form, then whitespace: strip removes nothing else |
| Text.StripIdempotent | invoices/views.py:139 | stripping twice is stripping once |
| Text.StripSurrounded | invoices/views.py:126 | stripping whitespace put around a text that neither starts nor ends with a space gives that text back |
| Text.Upper | invoices/views.py:180 | `upper()` keeps the length and upper-cases each ASCII letter in place |
| Text.UpperIdempotent | invoices/views.py:200 | upper-casing twice is upper-casing once, and no lower-case ASCII letter is left |
| Text.Lower | config/env_config.py:34 | `lower()` keeps the length and lower-cases each ASCII letter in place |
| Text.Split | config/env_config.py:52 | `split(',')` gives one more item than there are commas, no item holds a comma, and joining the items with commas gives the text back |
| Text.CountConcat | config/env_config.py:52 | the comma count of a concatenation is the sum of the counts |
| Text.DecimalString | invoices/utils.py:56 | `str(n)` of a natural number holds digits only, is never empty, and reads back as `n` |
| Text.IntString | invoices/utils.py:56 | definition of `str(n)` for an integer: a minus sign for negative numbers, then `DecimalString`; `DecimalString` and `IntStringInjective` state its properties |
| Text.IntStringInjective | invoices/utils.py:56 | different integers have different decimal texts |
| Text.RemoveCommasConcat | invoices/utils.py:56 | removing the commas of a concatenation removes them from each part |
| InvoiceUtils.RoundHalfEven | invoices/views.py:122 | `round(x)` is within one half of `x`, and a tie goes to the even integer |
| InvoiceUtils.RoundHalfEvenUnique | invoices/views.py:122 | no other integer meets that contract, so it defines Python's rounding |
| InvoiceUtils.RoundHalfEvenExamples | invoices/views.py:181 | whole amounts are unchanged; 2.5 rounds to 2, 3.5 to 4, -2.5 to -2, 374.6 to 375 and 0.4 to 0 |
| InvoiceUtils.ConvertToSar | invoices/utils.py:26-43 | SAR amounts are kept; IDR amounts are divided by a non-zero rate and give 0 for a zero rate; every other code multiplies by the rate |
| InvoiceUtils.ConvertToSarInverse | invoices/utils.py:40-43 | with a non-zero rate, multiplying back (IDR) or dividing back (other codes) gives the amount |
| InvoiceUtils.ConvertSarIgnoresRate | invoices/utils.py:38-39 | a SAR amount comes out the same whatever the rate |
| InvoiceUtils.ConvertToSarExamples | invoices/views.py:180-181 | 100 USD at 3.75 is 375 SAR, and 15000 IDR at 15 is 1000 SAR |
| InvoiceUtils.IsLeapYear | invoices/utils.py:21 | definition of the Gregorian leap year that strptime's day check uses; `DaysInMonth` states what it decides |
| InvoiceUtils.DaysInMonth | invoices/utils.py:21 | a month has 28 to 31 days; February has 29 exactly in Gregorian leap years |
| InvoiceUtils.ValidDate | invoices/utils.py:21 | definition of the calendar dates strptime accepts: year 1 to 9999, month 1 to 12, day within the month; `StrpTimeIso` and `StrpTimeIsoSpelled` state its use |
| InvoiceUtils.MonthField | invoices/utils.py:21 | what `%m` accepts is a month from 1 to 12 |
| InvoiceUtils.DayField | invoices/utils.py:21 | what `%d` accepts is a day from 1 to 31 |
| InvoiceUtils.MonthFieldPad2 | invoices/utils.py:21 | two digits are read by `%m` exactly when they spell 1 to 12, and then as that number |
| InvoiceUtils.DayFieldPad2 | invoices/utils.py:21 | two digits are read by `%d` exactly when they spell 1 to 31, and then as that number |
| InvoiceUtils.StrpTimeIsoSpelled | invoices/utils.py:20-23 | any year, month and day written as `YYYY-MM-DD` is read as exactly that date when it is a real calendar date (year 1 to 9999, month 1 to 12, day within the month), and rejected otherwise |
| InvoiceUtils.StrpTimeIso | invoices/utils.py:21 | every date `strptime(s, "%Y-%m-%d")` accepts is a real calendar date with a year from 1 to 9999 |
| InvoiceUtils.StrpTimeIsoRoundTrip | invoices/utils.py:21 | every valid date written as `YYYY-MM-DD` is read back unchanged |
| InvoiceUtils.StrpTimeIsoMonth13 | invoices/utils.py:21 | month 13 is rejected |
| InvoiceUtils.StrpTimeIsoDayOutOfRange | invoices/utils.py:21 | 29 February 2023 and 31 April are rejected |
| InvoiceUtils.StrpTimeIsoYearZero | invoices/utils.py:21 | year 0 is rejected |
| InvoiceUtils.StrpTimeIsoSurroundingSpace | invoices/utils.py:21 | a leading or trailing space, or the `DD/MM/YYYY` layout, is rejected |
| InvoiceUtils.StrpTimeIsoAccepts | invoices/utils.py:21 | 29 February of a leap year and one-digit months and days are accepted |
| InvoiceUtils.DayMonthYear | invoices/utils.py:21 | `strftime("%d/%m/%Y")` gives ten characters: two-digit day, month and four-digit year between slashes, reading back as the date's day, month and year |
| InvoiceUtils.ParseDate | invoices/utils.py:7-23 | a missing, empty or whitespace-only text gives None; any result is ten characters long |
| InvoiceUtils.ParseDateValid | invoices/utils.py:20-23 | a valid date typed as `YYYY-MM-DD` comes out as `DD/MM/YYYY` with the same day, month and year |
| InvoiceUtils.ParseDateRejected | invoices/utils.py:20-23 | a text strptime rejects gives None |
| InvoiceUtils.ParseDateSpelled | invoices/utils.py:7-23 | any year, month and day typed as `YYYY-MM-DD` gives its `DD/MM/YYYY` text when it is a real calendar date, and None otherwise (month 13, 30 February, day 0, year 0) |
| InvoiceUtils.GroupDigits | invoices/utils.py:56 | the digits of a natural number with a comma before every group of three from the right; the text begins and ends with a digit (its layout is stated by `GroupDigitsLayout` and `GroupDigitsDecimal`) |
| InvoiceUtils.ThreeDigits | invoices/utils.py:56 | a group after a comma is exactly three digits |
| InvoiceUtils.FormatThousands | invoices/utils.py:56 | `f"{n:,}"` with its commas removed is `str(n)` |
| InvoiceUtils.FormatCurrency | invoices/utils.py:46-56 | `format_currency(x)` with its commas removed is `str(int(round(x)))` |
| InvoiceUtils.DecimalStringSplit | invoices/utils.py:56 | the digits of `n` are those of `n // 1000` followed by its last three |
| InvoiceUtils.GroupDigitsDecimal | invoices/utils.py:56 | grouping only inserts commas into the decimal digits |
| InvoiceUtils.GroupDigitsLayout | invoices/utils.py:56 | the commas stand at every fourth place from the right and everything else is a digit |
| InvoiceUtils.FormatThousandsShape | invoices/utils.py:56 | the formatted text is a minus sign for negative numbers, then digits grouped by threes from the right, the first group beginning with a digit; with `FormatThousands` this leaves exactly one text for each integer |
| InvoiceUtils.FormatThousandsInjective | invoices/utils.py:56 | different amounts never share a formatted text |
| InvoiceUtils.FormatThousandsSmall | invoices/utils.py:56 | 0 is shown as "0" and 999 as "999" |
| InvoiceUtils.FormatThousandsGrouped | invoices/utils.py:56 | 1000 is shown as "1,000" |
| InvoiceUtils.FormatThousandsNegative | invoices/utils.py:56 | -1234 is shown as "-1,234" |
| EnvConfig.GetEnvVariable | config/env_config.py:8-19 | the stored value when the variable is set, the default otherwise |
| EnvConfig.BoolText | config/env_config.py:33-34 | `str(b)` of a boolean, whose lower-cased form is "true" or "false" |
| EnvConfig.IsTrueWord | config/env_config.py:34 | definition of the membership test in `("true", "1", "yes", "on")`; `GetBoolEnv` and its example lemmas state its use |
| EnvConfig.GetBoolEnv | config/env_config.py:22-34 | for a set variable: true exactly when its lower-cased value is "true", "1", "yes" or "on"; for an unset one: the default |
| EnvConfig.GetBoolEnvRoundTrip | config/env_config.py:33-34 | storing `str(b)` and reading it back as a boolean gives `b` |
| EnvConfig.GetBoolEnvTrueExamples | config/env_config.py:34 | "TRUE", "Yes" and "oN" read as true |
| EnvConfig.GetBoolEnvFalseExamples | config/env_config.py:34 | "0", "", " true" and "y" read as false whatever the default |
| EnvConfig.StripAll | config/env_config.py:52 | the comprehension strips every item and keeps their number and order |
| EnvConfig.GetListEnv | config/env_config.py:37-53 | an unset or empty variable gives the default, a missing default being `[]`; otherwise one stripped item per comma-separated part, as many as commas plus one, empty items kept |
| EnvConfig.GetListEnvItems | config/env_config.py:52 | no item holds a comma or begins or ends with whitespace |
| EnvConfig.GetListEnvJoin | config/env_config.py:50-52 | when no part carries whitespace around it, joining the items with commas gives the value back |
| EnvConfig.GetListEnvExamples | config/env_config.py:48-53 | an unset variable gives `[]`, an empty one the default, and "a, b,,c" four items |
| InvoiceViews.NumberOr | invoices/views.py:121 | definition of `float(x.strip()) if x and x.strip() else default` on a field `float()` can read; `ReservationLineFields`, `SarAmountCases` and `PaymentLineFields` state the defaults 0 and 1 |
| InvoiceViews.TextField | invoices/views.py:135 | a normalised text field is never empty |
| InvoiceViews.TextFieldNormalizes | invoices/views.py:135-139 | a blank field becomes "-" and any other its stripped text; the result neither starts nor ends with whitespace, and normalising again changes nothing |
| InvoiceViews.DateField | invoices/views.py:125-132 | a blank field gives None, and any date read is a valid calendar date |
| InvoiceViews.DateFieldReads | invoices/views.py:125-132 | a valid date typed as `YYYY-MM-DD`, with or without surrounding whitespace, is read as that date |
| InvoiceViews.ReservationForm.Lines | invoices/views.py:118-120 | `zip` gives one line per position of the shortest of the five lists, each line holding the five fields at that position |
| InvoiceViews.Reservation.Total | invoices/views.py:142 | the `total` entry with its commas removed is `str(total_int)` |
| InvoiceViews.ReservationLine | invoices/views.py:121-144 | the reservation built from one line: number and hotel never empty, a blank total gives 0, and a read total is rounded half to even, as `round` does (all fields stated by `ReservationLineFields`) |
| InvoiceViews.ReservationLineFields | invoices/views.py:121-143 | trimmed number and hotel ("-" when blank); each date is what its field reads as (None when blank, a valid date when read); a blank total gives 0 and "0"; a read total is rounded half to even, so within one half |
| InvoiceViews.ReservationList | invoices/views.py:118-144 | one reservation per line read |
| InvoiceViews.ReservationListAt | invoices/views.py:118-144 | reservation `j` is built from line `j`, in order |
| InvoiceViews.LinesTotal | invoices/views.py:145 | definition of `total_reservation_sar` after the first lines, each adding its `total_int`; `SumTotalsOfList` ties it to the built list and `ProcessReservationLines` to the loop |
| InvoiceViews.SumTotalsAppend | invoices/views.py:145 | appending a reservation adds its `total_int` to the sum |
| InvoiceViews.SumTotalsOfList | invoices/views.py:145 | the sum over the built list is the line-by-line running total |
| InvoiceViews.ReservationStep | invoices/views.py:137-145 | one pass of the loop appends the line's reservation and adds its `total_int` |
| InvoiceViews.ProcessReservationLines | invoices/views.py:118-147 | every line's reservation in order, and `total_reservation_sar` is the sum of their `total_int`; or the ValueError at the first line whose total `float()` rejects |
| InvoiceViews.ProcessReservations | invoices/views.py:109-147 | as above, over the zip of the five form lists |
| InvoiceViews.Payment.Amount | invoices/views.py:199 | the `amount` entry with its commas removed is `str(int(round(amount_float)))` |
| InvoiceViews.Payment.AmountSar | invoices/views.py:202 | the `amount_sar` entry with its commas removed is `str(amount_sar_int)` |
| InvoiceViews.PaymentForm.Lines | invoices/views.py:172-175 | `zip` gives one line per position of the shortest of the seven lists, each line holding the seven fields at that position |
| InvoiceViews.PaymentKey | invoices/views.py:190 | the normalised reservation number a payment is booked under: never empty, and "-" for a blank field |
| InvoiceViews.SarAmount | invoices/views.py:176-181 | `int(round(convert_to_sar(amount, currency.upper(), rate)))`, within one half of the converted amount (cases stated by `SarAmountCases`) |
| InvoiceViews.PaymentLine | invoices/views.py:176-204 | the payment built from one line: booked under its normalised number, method and note never empty, the date its field reads as, the amount rounded half to even (0 when blank), a rate shown exactly when the currency is not SAR, and the SAR amount of `SarAmount` (all fields stated by `PaymentLineFields`) |
| InvoiceViews.SarAmountCases | invoices/views.py:176-181 | a blank amount is 0, a blank rate is 1; the SAR amount is the rounded amount for SAR, amount / rate for IDR (0 at rate 0) and amount × rate otherwise, taken on the upper-cased code |
| InvoiceViews.PaymentLineFields | invoices/views.py:176-203 | number, method and note trimmed, "-" when blank; the date is what its field reads as (None when blank, a valid date when read); the currency is the upper-cased field and holds no ASCII lower-case letter; the rate is shown exactly when the currency is not SAR, as the value read or 1 when blank; the amount is rounded half to even (0 and "0" when blank), so within one half of a value read; the SAR amount is that of `convert_to_sar`, and its text reads back as it |
| InvoiceViews.PaymentsReadableAt | invoices/views.py:176-177 | every line of a prefix without ValueError has a readable amount and rate |
| InvoiceViews.PaymentList | invoices/views.py:172-204 | one payment per line read |
| InvoiceViews.PaidTotal | invoices/views.py:206 | definition of `total_paid_sar` after the first lines, each adding its SAR amount; `PaymentListStep`, `ProcessPaymentLines` and `PaidByReservationSum` state its properties |
| InvoiceViews.PaymentListStep | invoices/views.py:195-206 | one more line appends its payment and adds its SAR amount to `total_paid_sar` |
| InvoiceViews.PaymentListAt | invoices/views.py:172-204 | payment `j` is built from line `j`, in order |
| InvoiceViews.PaidFor | invoices/views.py:227 | definition of `payments_by_reservation.get(key, 0)`; `PaidByReservationValues` states that a missing bucket reads as 0 |
| InvoiceViews.AddTo | invoices/views.py:191-193 | adding to a bucket: the keys gain the bucket, the bucket becomes `get(key, 0)` plus the amount, and every other bucket is unchanged |
| InvoiceViews.PaidByReservation | invoices/views.py:189-193 | definition of `payments_by_reservation` after the first lines; its keys, values and sum are stated by `PaidByReservationKeys`, `PaidByReservationValues` and `PaidByReservationSum` |
| InvoiceViews.BucketAdd | invoices/views.py:191-193 | opening a missing bucket at 0 and then adding to it is adding to `get(key, 0)` |
| InvoiceViews.BucketStep | invoices/views.py:189-193 | one line's bucket update gives the per-reservation sums after that line |
| InvoiceViews.ProcessPaymentLines | invoices/views.py:172-208 | every line's payment in order, `total_paid_sar` the sum of the SAR amounts, and `payments_by_reservation` the SAR amounts per normalised number; or the ValueError at the first line whose amount or rate `float()` rejects |
| InvoiceViews.ProcessPayments | invoices/views.py:160-208 | as above, over the zip of the seven form lists |
| InvoiceViews.PaidByReservationKeys | invoices/views.py:189-193 | the buckets are exactly the normalised reservation numbers of the lines |
| InvoiceViews.PaidByReservationValues | invoices/views.py:189-193 | each bucket holds the sum of the SAR amounts booked under it, and a missing one reads as 0 |
| InvoiceViews.SumValuesAddTo | invoices/views.py:193 | adding an amount to one bucket adds it to the sum of all buckets |
| InvoiceViews.PaidByReservationSum | invoices/views.py:193-206 | the buckets' values add up to `total_paid_sar` |
| InvoiceViews.StatusClass | invoices/views.py:232-236 | definition of the CSS class each status stands for; `BalanceOfFields` states which class each case gives |
| InvoiceViews.MoreThanHalf | invoices/views.py:233 | definition of the test `remaining > total * 0.5` on integers; `MoreThanHalfExact` states that it is that comparison |
| InvoiceViews.MoreThanHalfExact | invoices/views.py:233 | the integer test `2 × remaining > total` is the source's `remaining > total * 0.5` |
| InvoiceViews.StatusOf | invoices/views.py:231-236 | the status rule in its order: "paid" exactly when nothing remains; "unpaid" only when more than half the total remains; "partial" only when something but at most half remains; an overpayment on a non-negative total is "partial" |
| InvoiceViews.StatusPaidIff | invoices/views.py:231-232 | "remaining-paid" exactly when the payments equal the total |
| InvoiceViews.StatusUnpaidIff | invoices/views.py:231-234 | "remaining-unpaid" exactly when the payments differ from the total and are less than half of it |
| InvoiceViews.StatusPartialIff | invoices/views.py:231-236 | "remaining-partial" exactly when the payments differ from the total and reach at least half of it |
| InvoiceViews.StatusOverpaid | invoices/views.py:231-236 | an overpaid reservation with a non-negative total is "remaining-partial" |
| InvoiceViews.StatusExamples | invoices/views.py:231-236 | for a total of 1000: paid at 1000, unpaid at 400 paid, partial at 700 and at 1200 paid |
| InvoiceViews.RemainingFor | invoices/views.py:227-228 | definition of `res_total - payments_by_reservation.get(res_num, 0)`; `BalanceOf` and `BalanceOfFields` state its use |
| InvoiceViews.BalanceOf | invoices/views.py:225-246 | the balance line of one reservation: number, hotel, dates and total copied; the remaining text reads back as `total_int - get(number, 0)`; the class is the status rule on that remainder |
| InvoiceViews.BalanceOfFields | invoices/views.py:225-246 | a balance line copies number, hotel, dates and total; its remaining text reads back as `total_int - get(number, 0)`; its status and its CSS class are "remaining-paid" exactly when the payments equal the total, "remaining-unpaid" exactly when they differ and fall short of half of it, "remaining-partial" exactly when they differ and reach at least half |
| InvoiceViews.BalanceList | invoices/views.py:224-246 | one balance line per reservation |
| InvoiceViews.BalanceListAt | invoices/views.py:224-246 | balance line `j` is made of reservation `j` |
| InvoiceViews.BalanceLine | invoices/views.py:225-246 | the loop body's if / elif / else chain and record give the balance line of the status rule |
| InvoiceViews.CalculateRemainingPerReservation | invoices/views.py:211-248 | the same number of entries in the same order, entry `i` being the balance line of reservation `i` |
| InvoiceViews.Totals | invoices/views.py:75-91 | the grand remaining plus the total paid is the reservations' total; the two remaining texts are the same |
| InvoiceViews.TotalsReadBack | invoices/views.py:87-90 | each total's text reads back, commas removed, as the integer it shows |
| InvoiceViews.GenerateInvoice | invoices/views.py:66-91 | the balance lines, the payments and the grand totals of the processed lines; or the first ValueError, the reservations' before the payments' |
| InvoiceViews.SumRemainingSplit | invoices/views.py:227-229 | the per-reservation remainders add up to the totals less what the reservations find in their buckets |
| InvoiceViews.SumPaidFoundAdd | invoices/views.py:227-228 | adding to a bucket adds to what the reservations find, once per reservation carrying that number |
| InvoiceViews.SumPaidFoundPayments | invoices/views.py:189-193 | what the reservations find is each payment times the number of reservations carrying its number |
| InvoiceViews.PaidAsFoundMatched | invoices/views.py:189-193 | when each payment's number is carried by exactly one reservation, they find exactly `total_paid_sar` |
| InvoiceViews.InvoiceRemainingVersusLines | invoices/views.py:75 | the grand remaining differs from the sum of the per-reservation remainders by the payments counted other than once |
| InvoiceViews.InvoiceRemainingMatchesLines | invoices/views.py:75 | with every payment booked under exactly one reservation's number, the grand remaining is the sum of the per-reservation remainders |
| InvoiceViews.OrphanPaymentExample | invoices/views.py:75 | a payment under a number no reservation carries lowers the grand remaining, while the reservation still owes its whole total and stays "unpaid" |
| InvoiceViews.DuplicateNumberExample | invoices/views.py:75 | two reservations with the same number each count that number's payments, so the remainders take them off twice and the totals once |

## Left out

- The HTTP shell of `generate_invoice` is not modelled: the 405 check, reading the header fields and parsing the issue and due dates (invoices/views.py:29-63). The model starts from the form lists already taken out of the request.
- The PDF side is not modelled: the logo path, the template read, the debug HTML file and WeasyPrint (invoices/views.py:251-298). These are file system and foreign-library calls.
- Floats are exact reals. No NaN or infinity (on which `round` raises), and no binary rounding of amounts, rates or `res_total * 0.5`. `MoreThanHalf` compares on integers; `MoreThanHalfExact` shows this equals the comparison with the exact half.
- The syntax `float()` accepts is not modelled. A numeric field is given as `NumberText`: blank, the number read, or unreadable.
- The `ValueError` result records only the line it happened on. It does not record which field of that line raised it.
- InvoiceViews.Payment: the `exchange` entry keeps the rate as a real. Its `{ex:,.2f}` text, with two decimals, is not modelled. The `amount` and `amount_sar` entries are the members `Amount()` and `AmountSar()`, formatted from the stored integers. They are not stored fields, but their values are the same.
- InvoiceViews.Reservation: the `total` entry is the member `Total()`, i.e. `total_int` formatted. It is not a stored field, but its value is the same.
- Text.Upper: only ASCII letters change. Python's `upper()` also maps other letters, some of them to several characters.
- Text.Lower: only ASCII letters change. Python's `lower()` also maps other letters.
- InvoiceUtils.StrpTimeIso: `\d` is taken as the ASCII digits only, while Python's regex also matches other Unicode decimal digits.
- InvoiceUtils.DayMonthYear: the year is written as four digits, zero-padded, as `strftime("%d/%m/%Y")` does on runtimes that pad `%Y`. Older CPython releases on Linux (glibc) write years 1 to 999 without leading zeros, so there `parse_date("0005-01-01")` gives `"01/01/5"`, and `ParseDate`'s ten-character result does not hold.
- `payments_by_reservation` is a map. The insertion order of the Python dict is not modelled; nothing in the core reads it.
- EnvConfig.GetEnvVariable: the default is an optional text, where Python accepts any object.
- The client-side script in `invoices/static/invoices/js/invoice_form.js` is not modelled. Neither are the HTTP tests in `invoices/tests.py` or the framework configuration.
