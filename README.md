# Invoice ledger of the purchasing dashboard

A Dafny model of the in-session invoice ledger of the "Controle Financeiro"
Streamlit page (`app.py`). The page keeps, per user session, a list of invoice
records (`registros`) and a flag (`mostrar_form`) that shows or hides the entry
form. Pressing "Salvar" derives the month key `MM/YYYY` from the due date,
refuses the save with a warning when the supplier already has an invoice in
that month (unless it is on the exemption list, which holds only "BUONNY"),
and otherwise appends one record and hides the form. "Novo Registro" shows the
form again. The "Dashboard" tab shows four figures: the number of invoices,
their total amount, and how many are pending ("Pendente") and paid ("Pago").

Modules:

- `Calendar` (calendar.dfy): a due date as a (day, month, year) triple with a
  validity predicate (Gregorian months and leap years, four-digit years), the
  zero-padded text forms `DD/MM/YYYY` (`FormatDate`) and `MM/YYYY`
  (`MonthKey`), and a parser `ParseDate` proved to be the exact inverse of
  `FormatDate`. `MonthKey` drops the day, so it is tied to the date instead:
  it is the last seven characters of `FormatDate` (`MonthKeyIsDateSuffix`),
  and two dates share it exactly when they share month and year
  (`MonthKeySameMonth`).
- `Suppliers` (suppliers.dfy): the supplier names as listed, the drop-down
  list (`Standard`, the sorted set of them) and the exemption list.
- `Ledger` (ledger.dfy): the record and submission types, the save decision
  (`Decide`, `AfterSave`) as functions, the one-invoice-per-supplier-per-month
  invariant (`NoDuplicates`), and the `Session` class holding `records` and
  `showForm` with the methods `Save`, `NewRecord` and the read-only scan
  `MonthSuppliers`.
- `Dashboard` (dashboard.dfy): the four aggregates and how a save moves them.
- `Scenario` (scenario.dfy): three short client scenarios of a `Session`: a first invoice stored, a second one in the same month refused, the exempt supplier filed twice.

The duplicate policy modelled is the one this page implements: a duplicate
is refused and nothing changes. Overwriting duplicates, editing, deleting,
due-date classification and percentages belong to other pages of the
repository and are not in `app.py`.

## Model

| member | source | states |
|---|---|---|
| Calendar.Pad2 | app.py:112 | Day and month are written with exactly two digits (zero-padded) and read back as the same number. |
| Calendar.Pad4 | app.py:112 | A four-digit year is written with four digits and reads back as the same number. |
| Calendar.FormatDate | app.py:112 | The stored date `strftime("%d/%m/%Y")`: ten characters, slashes at positions 2 and 5, digits elsewhere. Partners: `ParseFormatDate` and `FormatParsedDate`. |
| Calendar.MonthKey | app.py:97 | The month key `strftime("%m/%Y")`: seven characters, a slash at position 2, digits elsewhere. Partners: `MonthKeyIsDateSuffix` and `MonthKeySameMonth`. |
| Calendar.MonthKeyIsDateSuffix | app.py:112-115 | The stored date has 10 characters, the month key 7, and the month key is the date without its `DD/` prefix. |
| Calendar.ParseFormatDate | app.py:112 | Every valid due date written as `DD/MM/YYYY` reads back as that same date. |
| Calendar.FormatParsedDate | app.py:112 | Every string that reads as a date is exactly the `DD/MM/YYYY` form of it, so the format is a bijection onto its image. |
| Calendar.MonthKeySameMonth | app.py:97 | Two due dates share a month key if and only if they have the same month and the same year. |
| Suppliers.StandardIsSortedSetOfListed | app.py:9-23 | The constant `Suppliers.Standard` models `sorted(list(set(...)))`: the drop-down holds the 13 listed names, each once, in strictly increasing code-point order, and no other name. |
| Suppliers.ExemptAreStandard | app.py:25 | Every supplier exempt from the monthly rule is one of the drop-down choices. |
| Ledger.SuppliersInMonth | app.py:99-103 | Computes the suppliers of the records whose month key equals the given one, in record order (no contract of its own). Partner: `InMonthIff`. |
| Ledger.InMonthIff | app.py:99-103 | A supplier is among those collected for a month if and only if some record of that supplier carries that month key. |
| Ledger.Decide | app.py:105-107 | Computes the outcome of the condition on line 105: `DuplicateRejected` when the supplier is among the month's suppliers and not exempt, else `Saved` (no contract of its own). Partners: `RejectedIff`, `DecisionOnlyByKeys`, `ExemptAlwaysSaved`. |
| Ledger.RejectedIff | app.py:99-107 | A save is refused if and only if the supplier is not exempt and some record has the same supplier and the due date's month key. |
| Ledger.ExemptAlwaysSaved | app.py:105 | An exempt supplier is never refused: from any record list, the save appends its record. |
| Ledger.DecisionOnlyByKeys | app.py:99-105 | The decision depends only on the supplier and month key: number, amount, status and day of the submission, and those fields of stored records, do not change it. |
| Ledger.MakeRecord | app.py:109-116 | The appended record's date reads back as the due date, the record is well formed, and its month key is the date's last seven characters. |
| Ledger.AfterSave | app.py:105-118 | The record list after a save is append-only: it grows by at most one record at its end and every earlier record keeps its place. Partners: `SavePreservesInvariant`, `ExemptAlwaysSaved`. |
| Ledger.WellFormedMonthIsSuffix | app.py:112-115 | In every well-formed record, `mes` is the last seven characters of `data`. |
| Ledger.SavePreservesInvariant | app.py:99-118 | A save keeps every non-exempt supplier to at most one record per month key and keeps all records well formed. |
| Ledger.ReplayInvariant | app.py:99-118 | From the empty list, any sequence of submissions leaves at most one record per non-exempt supplier and month, all well formed. |
| Ledger.ReplayExemptAllSaved | app.py:105 | Any number of submissions of the exempt supplier, in any months, are all saved: one record each. |
| Ledger.Session.constructor | app.py:30-34 | A new session starts with no records and the form shown, and satisfies the ledger invariant. |
| Ledger.Session.MonthSuppliers | app.py:99-103 | The scan returns the suppliers of the records filed under the month, in record order. |
| Ledger.Session.Save | app.py:95-123 | The outcome is the save decision; a refused save changes neither the records nor the flag; a successful one appends exactly the new record after all earlier ones and hides the form; the invariant is kept. |
| Ledger.Session.NewRecord | app.py:72-75 | "Novo Registro" leaves the form shown, the records unchanged and the ledger invariant kept. |
| Dashboard.Summarize | app.py:132-135 | The invoice card counts the records and the pending and paid cards add up to it. |
| Dashboard.TotalAmount | app.py:133 | Computes the sum of the record amounts, in cents (no contract of its own). Partners: `TotalAmountAppend`, `AmountWithinTotal`. |
| Dashboard.CountStatus | app.py:134-135 | The number of records with a given status never exceeds the number of records. Partners: `StatusPartition`, `CountStatusAppend`. |
| Dashboard.StatusPartition | app.py:134-135 | The pending count plus the paid count equals the number of records. |
| Dashboard.TotalAmountAppend | app.py:133 | The total of two record lists put together is the sum of their totals. |
| Dashboard.CountStatusAppend | app.py:134-135 | The status counts of two record lists put together are the sums of their counts. |
| Dashboard.AmountWithinTotal | app.py:133 | Every record's amount is at most the total. |
| Dashboard.SaveMovesDashboard | app.py:118-135 | A saved invoice adds one invoice, its amount and one to its status count; a refused one leaves all four figures unchanged. |

## Left out

- Page layout and messages: page configuration, CSS, tabs, columns, cards, the table, and the success, info and warning texts. The warning is the `DuplicateRejected` outcome of `Save`.
- The `st.stop()` and `st.rerun()` control flow: `Save` returns its outcome instead of re-running the script.
- Amounts are whole cents (`nat`), not floats; the `%.2f` input format and the `R$ {:,.2f}` display are not modelled. That the total is never negative follows from the `nat` type.
- Dates: the date widget is replaced by a (day, month, year) triple with `ValidDate`. Years are limited to four digits. `strftime("%Y")` pads years below 1000 differently on different platforms, and the widget only offers dates ten years either side of today.
- Status is a two-value datatype for the two labels of the status drop-down, not a free string.
- Ledger.Session.Save: requires the form to be shown, because the "Salvar" button only exists inside the form.
- Persistence, login, editing and deleting do not exist in `app.py`.
