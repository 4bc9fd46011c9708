/** The four figures of the "Dashboard" tab: number of invoices, total
    amount, number pending and number paid. */
module Dashboard {
  import opened Calendar
  import opened Ledger

  /** Sum of the record amounts, in cents. */
  function TotalAmount(rs: seq<Record>): nat
  {
    if |rs| == 0 then 0 else TotalAmount(rs[..|rs| - 1]) + rs[|rs| - 1].amount
  }

  /** Number of records with the given status. */
  function CountStatus(rs: seq<Record>, status: Status): (n: nat)
    ensures n <= |rs|
  {
    if |rs| == 0 then 0
    else CountStatus(rs[..|rs| - 1], status) + (if rs[|rs| - 1].status == status then 1 else 0)
  }

  datatype Summary = Summary(invoices: nat, total: nat, pending: nat, paid: nat)

  /** The dashboard cards for a record list. The pending and paid cards
      always add up to the invoice card. */
  function Summarize(rs: seq<Record>): (s: Summary)
    ensures s.pending + s.paid == s.invoices == |rs|
  {
    StatusPartition(rs);
    Summary(|rs|, TotalAmount(rs), CountStatus(rs, Pendente), CountStatus(rs, Pago))
  }

  /** Every record is either pending or paid, so the two counts partition the list. */
  lemma {:induction false} StatusPartition(rs: seq<Record>)
    ensures CountStatus(rs, Pendente) + CountStatus(rs, Pago) == |rs|
  {
    if |rs| > 0 {
      StatusPartition(rs[..|rs| - 1]);
    }
  }

  /** The total is additive over concatenation. */
  lemma {:induction false} TotalAmountAppend(a: seq<Record>, b: seq<Record>)
    ensures TotalAmount(a + b) == TotalAmount(a) + TotalAmount(b)
  {
    if |b| > 0 {
      assert (a + b)[..|a + b| - 1] == a + b[..|b| - 1];
      TotalAmountAppend(a, b[..|b| - 1]);
    } else {
      assert a + b == a;
    }
  }

  /** The counts are additive over concatenation. */
  lemma {:induction false} CountStatusAppend(a: seq<Record>, b: seq<Record>, status: Status)
    ensures CountStatus(a + b, status) == CountStatus(a, status) + CountStatus(b, status)
  {
    if |b| > 0 {
      assert (a + b)[..|a + b| - 1] == a + b[..|b| - 1];
      CountStatusAppend(a, b[..|b| - 1], status);
    } else {
      assert a + b == a;
    }
  }

  /** Each invoice amount is at most the total, so the total is at least
      every amount and never negative. */
  lemma {:induction false} AmountWithinTotal(rs: seq<Record>, i: nat)
    requires i < |rs|
    ensures rs[i].amount <= TotalAmount(rs)
  {
    if i < |rs| - 1 {
      AmountWithinTotal(rs[..|rs| - 1], i);
    }
  }

  /** How one press of "Salvar" moves the dashboard: a saved invoice adds one
      to the invoice card, its amount to the total and one to its status card;
      a refused one changes nothing. */
  lemma SaveMovesDashboard(rs: seq<Record>, sub: Submission)
    requires ValidDate(sub.due)
    ensures Decide(rs, sub) == DuplicateRejected ==> Summarize(AfterSave(rs, sub)) == Summarize(rs)
    ensures Decide(rs, sub) == Saved ==>
      Summarize(AfterSave(rs, sub)) == Summary(
        Summarize(rs).invoices + 1,
        Summarize(rs).total + sub.amount,
        Summarize(rs).pending + (if sub.status == Pendente then 1 else 0),
        Summarize(rs).paid + (if sub.status == Pago then 1 else 0))
  {
  }
}
