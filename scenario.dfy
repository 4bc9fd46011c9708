/** A session as the pages drive it: what a caller can conclude from the
    contracts of Session alone. */
module Scenario {
  import opened Calendar
  import opened Suppliers
  import opened Ledger

  /** The first invoice of a session is stored with its zero-padded date and month key. */
  method FirstInvoiceStored()
  {
    var session := new Session();
    var due := Date(5, 3, 2026);
    assert MonthKey(due) == "03/2026";
    assert FormatDate(due) == "05/03/2026";
    var first := Submission("NISSEYS", "101", due, 10000, Pendente);
    assert ValidSubmission(first);
    var o := session.Save(first);
    assert o == Saved && !session.showForm;
    assert session.records == [Record("NISSEYS", "101", "05/03/2026", 10000, Pendente, "03/2026")];
  }

  /** A second invoice of a non-exempt supplier in the same month is refused. */
  method SecondInvoiceRefused()
  {
    var session := new Session();
    var first := Submission("NISSEYS", "101", Date(5, 3, 2026), 10000, Pendente);
    assert ValidSubmission(first);
    var o1 := session.Save(first);
    var saved := session.records;
    assert saved == [MakeRecord(first)];

    session.NewRecord();
    var second := Submission("NISSEYS", "102", Date(28, 3, 2026), 500, Pago);
    assert ValidSubmission(second);
    MonthKeySameMonth(first.due, second.due);
    assert saved[0].supplier == second.supplier && saved[0].month == MonthKey(second.due);
    RejectedIff(saved, second);
    var o2 := session.Save(second);
    assert o2 == DuplicateRejected && session.showForm && session.records == saved;
  }

  /** The exempt supplier may be filed twice in the same month. */
  method ExemptFiledTwice()
  {
    var session := new Session();
    var due := Date(5, 3, 2026);
    var first := Submission("BUONNY", "7", due, 2500, Pago);
    assert ValidSubmission(first) && IsExempt(first.supplier);
    var o1 := session.Save(first);
    session.NewRecord();
    var second := Submission("BUONNY", "8", due, 2500, Pendente);
    assert ValidSubmission(second);
    var o2 := session.Save(second);
    assert o1 == Saved && o2 == Saved && |session.records| == 2;
    assert session.records[0].month == session.records[1].month;
  }
}
