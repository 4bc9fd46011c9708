/** The in-session invoice ledger: the list of saved invoice records, the
    one-invoice-per-supplier-per-month save rule with its exemption list, and
    the flag that shows or hides the entry form. */
module Ledger {
  import opened Calendar
  import opened Suppliers

  /** The two labels of the status drop-down, "Pendente" and "Pago". */
  datatype Status = Pendente | Pago

  /** One stored invoice: supplier, invoice number, due date as "DD/MM/YYYY",
      amount in cents, status, and the month key "MM/YYYY" it is filed under. */
  datatype Record = Record(
    supplier: string,
    number: string,
    date: string,
    amount: nat,
    status: Status,
    month: string)

  /** The field values of one submitted entry form. */
  datatype Submission = Submission(
    supplier: string,
    number: string,
    due: Date,
    amount: nat,
    status: Status)

  /** What a press of "Salvar" leads to. */
  datatype Outcome = Saved | DuplicateRejected

  /** What the form can submit: a supplier from the drop-down and a real date. */
  predicate ValidSubmission(sub: Submission) {
    sub.supplier in Standard && ValidDate(sub.due)
  }

  /** The record a successful save appends: its date reads back as the due
      date, and its month key is the date's last seven characters. */
  function MakeRecord(sub: Submission): (r: Record)
    requires ValidDate(sub.due)
    ensures ParseDate(r.date) == Some(sub.due)
    ensures WellFormed(r)
    ensures r.month == r.date[3..]
  {
    ParseFormatDate(sub.due);
    MonthKeyIsDateSuffix(sub.due);
    Record(sub.supplier, sub.number, FormatDate(sub.due), sub.amount, sub.status, MonthKey(sub.due))
  }

  /** A stored record whose date is the zero-padded form of a valid date and
      whose month key is that date's month key. */
  predicate WellFormed(r: Record) {
    match ParseDate(r.date)
    case Some(d) => r.month == MonthKey(d)
    case None => false
  }

  predicate AllWellFormed(rs: seq<Record>) {
    forall i :: 0 <= i < |rs| ==> WellFormed(rs[i])
  }

  /** The suppliers of the records filed under `month`, in list order. */
  function SuppliersInMonth(rs: seq<Record>, month: string): seq<string>
  {
    if |rs| == 0 then []
    else
      var last := rs[|rs| - 1];
      SuppliersInMonth(rs[..|rs| - 1], month) + (if last.month == month then [last.supplier] else [])
  }

  /** Saving `supplier` under `month` is refused. */
  predicate IsDuplicate(rs: seq<Record>, supplier: string, month: string) {
    supplier in SuppliersInMonth(rs, month) && !IsExempt(supplier)
  }

  function Decide(rs: seq<Record>, sub: Submission): Outcome
    requires ValidDate(sub.due)
  {
    if IsDuplicate(rs, sub.supplier, MonthKey(sub.due)) then DuplicateRejected else Saved
  }

  /** The record list after a press of "Salvar". The list only grows at its
      end, by at most one record: earlier records keep their place. */
  function AfterSave(rs: seq<Record>, sub: Submission): (r: seq<Record>)
    requires ValidDate(sub.due)
    ensures |rs| <= |r| <= |rs| + 1
    ensures r[..|rs|] == rs
  {
    if Decide(rs, sub) == Saved then rs + [MakeRecord(sub)] else rs
  }

  /** In every month, a supplier that is not exempt has at most one record. */
  predicate NoDuplicates(rs: seq<Record>) {
    forall i, j :: 0 <= i < j < |rs| && rs[i].supplier == rs[j].supplier && rs[i].month == rs[j].month
      ==> IsExempt(rs[i].supplier)
  }

  /** The records left by a sequence of form submissions, starting from the
      empty list the session begins with. */
  function Replay(subs: seq<Submission>): seq<Record>
    requires forall k :: 0 <= k < |subs| ==> ValidSubmission(subs[k])
  {
    if |subs| == 0 then []
    else
      var last := subs[|subs| - 1];
      assert ValidSubmission(last);
      AfterSave(Replay(subs[..|subs| - 1]), last)
  }

  // ---------------------------------------------------------------------
  // Properties of the save rule

  /** A supplier is among those collected for a month exactly when some
      record of that supplier is filed under that month. */
  lemma {:induction false} InMonthIff(rs: seq<Record>, month: string, supplier: string)
    ensures supplier in SuppliersInMonth(rs, month)
        <==> exists i :: 0 <= i < |rs| && rs[i].month == month && rs[i].supplier == supplier
  {
    if |rs| > 0 {
      var init := rs[..|rs| - 1];
      InMonthIff(init, month, supplier);
      if exists i :: 0 <= i < |init| && init[i].month == month && init[i].supplier == supplier {
        var i :| 0 <= i < |init| && init[i].month == month && init[i].supplier == supplier;
        assert rs[i] == init[i];
      }
      if exists i :: 0 <= i < |rs| && rs[i].month == month && rs[i].supplier == supplier {
        var i :| 0 <= i < |rs| && rs[i].month == month && rs[i].supplier == supplier;
        if i < |init| {
          assert init[i] == rs[i];
        }
      }
    }
  }

  /** A save is refused exactly when the supplier is not exempt and already
      has a record filed under the due date's month key. */
  lemma RejectedIff(rs: seq<Record>, sub: Submission)
    requires ValidDate(sub.due)
    ensures Decide(rs, sub) == DuplicateRejected
        <==> !IsExempt(sub.supplier)
             && exists i :: 0 <= i < |rs| && rs[i].supplier == sub.supplier && rs[i].month == MonthKey(sub.due)
  {
    InMonthIff(rs, MonthKey(sub.due), sub.supplier);
  }

  /** An exempt supplier is never refused: every save adds one record. */
  lemma ExemptAlwaysSaved(rs: seq<Record>, sub: Submission)
    requires ValidDate(sub.due) && IsExempt(sub.supplier)
    ensures Decide(rs, sub) == Saved
    ensures AfterSave(rs, sub) == rs + [MakeRecord(sub)]
  {
  }

  lemma {:induction false} SameKeysSameSuppliers(rs1: seq<Record>, rs2: seq<Record>, month: string)
    requires |rs1| == |rs2|
    requires forall i :: 0 <= i < |rs1| ==> rs1[i].supplier == rs2[i].supplier && rs1[i].month == rs2[i].month
    ensures SuppliersInMonth(rs1, month) == SuppliersInMonth(rs2, month)
  {
    if |rs1| > 0 {
      SameKeysSameSuppliers(rs1[..|rs1| - 1], rs2[..|rs2| - 1], month);
    }
  }

  /** Only the supplier and the month key decide a save: the invoice number,
      amount, status and day of the month of the submission, and those fields
      of the stored records, play no part. */
  lemma DecisionOnlyByKeys(rs1: seq<Record>, rs2: seq<Record>, a: Submission, b: Submission)
    requires |rs1| == |rs2|
    requires forall i :: 0 <= i < |rs1| ==> rs1[i].supplier == rs2[i].supplier && rs1[i].month == rs2[i].month
    requires ValidDate(a.due) && ValidDate(b.due)
    requires a.supplier == b.supplier && a.due.month == b.due.month && a.due.year == b.due.year
    ensures Decide(rs1, a) == Decide(rs2, b)
  {
    SameKeysSameSuppliers(rs1, rs2, MonthKey(a.due));
  }

  /** In a well-formed record the month key is the last seven characters of the date. */
  lemma WellFormedMonthIsSuffix(r: Record)
    requires WellFormed(r)
    ensures |r.date| == 10 && |r.month| == 7
    ensures r.month == r.date[|r.date| - 7..]
  {
    var d := ParseDate(r.date).value;
    FormatParsedDate(r.date);
    MonthKeyIsDateSuffix(d);
  }

  /** A save keeps every non-exempt supplier to one record per month and
      keeps every record well formed. */
  lemma SavePreservesInvariant(rs: seq<Record>, sub: Submission)
    requires ValidDate(sub.due)
    requires NoDuplicates(rs) && AllWellFormed(rs)
    ensures NoDuplicates(AfterSave(rs, sub)) && AllWellFormed(AfterSave(rs, sub))
  {
    if Decide(rs, sub) == Saved {
      var r := MakeRecord(sub);
      var rs' := rs + [r];
      RejectedIff(rs, sub);
      forall i, j | 0 <= i < j < |rs'| && rs'[i].supplier == rs'[j].supplier && rs'[i].month == rs'[j].month
        ensures IsExempt(rs'[i].supplier)
      {
        if j == |rs| {
          assert rs[i].supplier == sub.supplier && rs[i].month == MonthKey(sub.due);
        } else {
          assert rs'[i] == rs[i] && rs'[j] == rs[j];
        }
      }
      assert forall i :: 0 <= i < |rs'| ==> rs'[i] == if i < |rs| then rs[i] else r;
    }
  }

  /** From the empty list, any sequence of submissions leaves at most one
      record per non-exempt supplier and month, each record well formed. */
  lemma {:induction false} ReplayInvariant(subs: seq<Submission>)
    requires forall k :: 0 <= k < |subs| ==> ValidSubmission(subs[k])
    ensures NoDuplicates(Replay(subs)) && AllWellFormed(Replay(subs))
  {
    if |subs| > 0 {
      ReplayInvariant(subs[..|subs| - 1]);
      SavePreservesInvariant(Replay(subs[..|subs| - 1]), subs[|subs| - 1]);
    }
  }

  /** Submissions of exempt suppliers are all saved, whatever their months. */
  lemma {:induction false} ReplayExemptAllSaved(subs: seq<Submission>)
    requires forall k :: 0 <= k < |subs| ==> ValidSubmission(subs[k]) && IsExempt(subs[k].supplier)
    ensures |Replay(subs)| == |subs|
  {
    if |subs| > 0 {
      ReplayExemptAllSaved(subs[..|subs| - 1]);
    }
  }

  // ---------------------------------------------------------------------
  // The session state

  /** The per-user session: the saved records and whether the entry form is shown. */
  class Session {
    var records: seq<Record>
    var showForm: bool

    ghost predicate Valid()
      reads this
    {
      NoDuplicates(records) && AllWellFormed(records)
    }

    /** A new session: no records, form shown. */
    constructor ()
      ensures Valid()
      ensures records == [] && showForm
    {
      records := [];
      showForm := true;
    }

    /** The suppliers already recorded under `month`, in record order. */
    method MonthSuppliers(month: string) returns (suppliers: seq<string>)
      ensures suppliers == SuppliersInMonth(records, month)
    {
      suppliers := [];
      var i := 0;
      while i < |records|
        invariant 0 <= i <= |records|
        invariant suppliers == SuppliersInMonth(records[..i], month)
      {
        assert records[..i + 1][..i] == records[..i];
        if records[i].month == month {
          suppliers := suppliers + [records[i].supplier];
        }
        i := i + 1;
      }
      assert records[..i] == records;
    }

    /** "Salvar": refuse a second invoice of a non-exempt supplier in the same
        month, otherwise append the new record and hide the form. */
    method Save(sub: Submission) returns (outcome: Outcome)
      requires Valid() && ValidSubmission(sub) && showForm
      modifies this
      ensures Valid()
      ensures outcome == Decide(old(records), sub)
      ensures outcome == DuplicateRejected ==> records == old(records) && showForm == old(showForm)
      ensures outcome == Saved ==> records == old(records) + [MakeRecord(sub)] && !showForm
    {
      var month := MonthKey(sub.due);
      var monthSuppliers := MonthSuppliers(month);
      if sub.supplier in monthSuppliers && sub.supplier !in DuplicateAllowed {
        outcome := DuplicateRejected;
        return;
      }
      var r := Record(sub.supplier, sub.number, FormatDate(sub.due), sub.amount, sub.status, month);
      SavePreservesInvariant(records, sub);
      records := records + [r];
      showForm := false;
      outcome := Saved;
    }

    /** "Novo Registro": the button appears only while the form is hidden,
        and pressing it shows the form again. */
    method NewRecord()
      requires Valid()
      modifies this
      ensures Valid()
      ensures showForm
      ensures records == old(records)
    {
      if !showForm {
        showForm := true;
      }
    }
  }
}
