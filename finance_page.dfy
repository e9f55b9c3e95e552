/** The finance page: the three settlement totals, the masked account number,
    the settlement export and the add-bank-details form. */
module FinancePage {
  import opened Common
  import opened ProductValidation

  /** The fee breakdown stored with a settlement. */
  datatype Fees = Fees(commission: int, payment: int, shipping: int)

  /** A settlement as the page receives it; dates are instants. */
  datatype Settlement = Settlement(
    id: string,
    amount: int,
    fees: Fees,
    periodStart: int,
    periodEnd: int,
    expectedPayoutDate: int,
    status: string)

  // ---------------------------------------------------------------------
  // the three totals

  /** `totalEarnings`: the sum of all amounts. */
  function TotalEarnings(ss: seq<Settlement>): int {
    if ss == [] then 0 else ss[0].amount + TotalEarnings(ss[1..])
  }

  predicate IsPending(s: Settlement) { s.status == "pending" }
  predicate IsNotPending(s: Settlement) { s.status != "pending" }
  predicate IsCompleted(s: Settlement) { s.status == "completed" }

  /** `pendingPayouts`: the sum of the amounts of pending settlements. */
  function PendingPayouts(ss: seq<Settlement>): int {
    TotalEarnings(Filter(IsPending, ss))
  }

  /** `completedPayouts`: how many settlements are completed. */
  function CompletedPayouts(ss: seq<Settlement>): (n: nat)
    ensures n <= |ss|
  {
    |Filter(IsCompleted, ss)|
  }

  lemma TotalCons(x: Settlement, t: seq<Settlement>)
    ensures TotalEarnings([x] + t) == x.amount + TotalEarnings(t)
  {
    assert ([x] + t)[1..] == t;
  }

  /** The earnings are the pending payouts plus the amounts of every other
      settlement. */
  lemma {:induction false} EarningsSplit(ss: seq<Settlement>)
    ensures TotalEarnings(ss) == PendingPayouts(ss) + TotalEarnings(Filter(IsNotPending, ss))
  {
    if ss != [] {
      var x, t := ss[0], ss[1..];
      EarningsSplit(t);
      if IsPending(x) {
        assert Filter(IsPending, ss) == [x] + Filter(IsPending, t);
        assert Filter(IsNotPending, ss) == Filter(IsNotPending, t);
        TotalCons(x, Filter(IsPending, t));
      } else {
        assert Filter(IsPending, ss) == Filter(IsPending, t);
        assert Filter(IsNotPending, ss) == [x] + Filter(IsNotPending, t);
        TotalCons(x, Filter(IsNotPending, t));
      }
    }
  }

  /** Amounts that are never negative add up to a total that is not. */
  lemma {:induction false} EarningsNonNegative(ss: seq<Settlement>)
    requires forall k :: 0 <= k < |ss| ==> ss[k].amount >= 0
    ensures TotalEarnings(ss) >= 0
  {
    if ss != [] {
      EarningsNonNegative(ss[1..]);
    }
  }

  /** With non-negative amounts, the pending payouts never exceed the
      earnings. */
  lemma PendingWithinEarnings(ss: seq<Settlement>)
    requires forall k :: 0 <= k < |ss| ==> ss[k].amount >= 0
    ensures 0 <= PendingPayouts(ss) <= TotalEarnings(ss)
  {
    EarningsSplit(ss);
    var pending := Filter(IsPending, ss);
    var others := Filter(IsNotPending, ss);
    forall k | 0 <= k < |pending| ensures pending[k].amount >= 0 {
      assert pending[k] in ss;
    }
    forall k | 0 <= k < |others| ensures others[k].amount >= 0 {
      assert others[k] in ss;
    }
    EarningsNonNegative(pending);
    EarningsNonNegative(others);
  }

  /** A completed settlement is not pending, so the completed count and the
      pending settlements together never outnumber the settlements. */
  lemma {:induction false} CompletedAndPendingApart(ss: seq<Settlement>)
    ensures CompletedPayouts(ss) + |Filter(IsPending, ss)| <= |ss|
  {
    if ss != [] {
      CompletedAndPendingApart(ss[1..]);
      assert Filter(IsPending, ss) == (if IsPending(ss[0]) then [ss[0]] else []) + Filter(IsPending, ss[1..]);
      assert Filter(IsCompleted, ss) == (if IsCompleted(ss[0]) then [ss[0]] else []) + Filter(IsCompleted, ss[1..]);
    }
  }

  // ---------------------------------------------------------------------
  // account number

  /** `accountNumber.slice(-4)`: the last four characters, or all of a
      shorter number. */
  function LastFour(n: string): (r: string)
    ensures |r| == if |n| < 4 then |n| else 4
    ensures r == n[|n| - |r|..]
  {
    if |n| < 4 then n else n[|n| - 4..]
  }

  /** Six bullets stand for the hidden digits. */
  const MaskPrefix: string := "\U{2022}\U{2022}\U{2022}\U{2022}\U{2022}\U{2022}"

  function MaskedAccount(n: string): string {
    MaskPrefix + LastFour(n)
  }

  /** Two account numbers show the same way exactly when they end in the same
      four characters: nothing before them is revealed. */
  lemma MaskRevealsOnlyLastFour(a: string, b: string)
    ensures MaskedAccount(a) == MaskedAccount(b) <==> LastFour(a) == LastFour(b)
  {
    if MaskedAccount(a) == MaskedAccount(b) {
      assert LastFour(a) == MaskedAccount(a)[|MaskPrefix|..];
      assert LastFour(b) == MaskedAccount(b)[|MaskPrefix|..];
    }
  }

  // ---------------------------------------------------------------------
  // settlement export

  const CsvHeader: seq<string> := ["Settlement ID", "Amount", "Commission", "Payment Fee", "Shipping", "Period Start", "Period End", "Payout Date", "Status"]

  /** One exported line: the id, the amount, the three fees, the three dates
      as `formatDate` writes them, and the status. */
  function SettlementRow(formatDate: int -> string, s: Settlement): (row: seq<string>)
    ensures |row| == |CsvHeader|
  {
    [s.id, IntToString(s.amount), IntToString(s.fees.commission), IntToString(s.fees.payment),
     IntToString(s.fees.shipping), formatDate(s.periodStart), formatDate(s.periodEnd),
     formatDate(s.expectedPayoutDate), s.status]
  }

  /** The rows of the export: the header, then one row per settlement in
      order. */
  function ExportRows(formatDate: int -> string, ss: seq<Settlement>): (rows: seq<seq<string>>)
    ensures |rows| == |ss| + 1 && rows[0] == CsvHeader
    ensures forall k :: 0 <= k < |ss| ==> rows[k + 1] == SettlementRow(formatDate, ss[k])
  {
    var body := MapSeq((s: Settlement) => SettlementRow(formatDate, s), ss);
    assert forall k :: 0 <= k < |ss| ==> body[k] == SettlementRow(formatDate, ss[k]);
    [CsvHeader] + body
  }

  /** `row.join(',')`; an empty row joins to the empty text. */
  function CommaLine(row: seq<string>): string {
    if row == [] then "" else Join(row, ',')
  }

  /** The exported text: the rows joined by commas, the lines by newlines. */
  function ExportCsv(formatDate: int -> string, ss: seq<Settlement>): string {
    Join(MapSeq(CommaLine, ExportRows(formatDate, ss)), '\n')
  }

  /** A cell that neither separator can split. */
  predicate PlainCell(s: string) { ',' !in s && '\n' !in s }

  lemma NumberCellPlain(i: int)
    ensures PlainCell(IntToString(i))
  {
    var s := IntToString(i);
    var digits := NatToString(if i < 0 then -i else i);
    assert s == if i < 0 then "-" + digits else digits;
    forall k | 0 <= k < |s| ensures s[k] != ',' && s[k] != '\n' {
      if i < 0 && k > 0 {
        assert s[k] == digits[k - 1];
      }
    }
  }

  /** A join of pieces free of a character, by another separator, is free of
      it too. */
  lemma {:induction false} JoinAvoids(parts: seq<string>, sep: char, c: char)
    requires |parts| >= 1 && c != sep
    requires forall k :: 0 <= k < |parts| ==> c !in parts[k]
    ensures c !in Join(parts, sep)
  {
    if |parts| > 1 {
      JoinAvoids(parts[1..], sep, c);
    }
  }

  /** A row of plain cells is one line that splits back into the row. */
  lemma LineRoundTrip(row: seq<string>)
    requires row != [] && forall k :: 0 <= k < |row| ==> PlainCell(row[k])
    ensures '\n' !in CommaLine(row) && Split(CommaLine(row), ',') == row
  {
    JoinAvoids(row, ',', '\n');
    SplitJoin(row, ',');
  }

  lemma HeaderPlain()
    ensures forall k :: 0 <= k < |CsvHeader| ==> PlainCell(CsvHeader[k])
  {
  }

  /** The cells of a settlement row are plain when its id, status and
      formatted dates are. */
  lemma RowPlain(formatDate: int -> string, s: Settlement)
    requires PlainCell(formatDate(s.periodStart)) && PlainCell(formatDate(s.periodEnd))
    requires PlainCell(formatDate(s.expectedPayoutDate))
    requires PlainCell(s.id) && PlainCell(s.status)
    ensures forall k :: 0 <= k < |CsvHeader| ==> PlainCell(SettlementRow(formatDate, s)[k])
  {
    NumberCellPlain(s.amount);
    NumberCellPlain(s.fees.commission);
    NumberCellPlain(s.fees.payment);
    NumberCellPlain(s.fees.shipping);
  }

  /** Read back line by line and cell by cell, the export gives the header
      and one nine-cell row per settlement, provided ids, statuses and
      formatted dates hold no comma or newline. */
  lemma ExportRoundTrip(formatDate: int -> string, ss: seq<Settlement>)
    requires forall t :: PlainCell(formatDate(t))
    requires forall k :: 0 <= k < |ss| ==> PlainCell(ss[k].id) && PlainCell(ss[k].status)
    ensures var lines := Split(ExportCsv(formatDate, ss), '\n');
      && |lines| == |ss| + 1
      && Split(lines[0], ',') == CsvHeader
      && forall k :: 0 <= k < |ss| ==> Split(lines[k + 1], ',') == SettlementRow(formatDate, ss[k])
  {
    var rows := ExportRows(formatDate, ss);
    var lines := MapSeq(CommaLine, rows);
    forall r | 0 <= r < |rows| ensures '\n' !in lines[r] && Split(lines[r], ',') == rows[r] {
      if r == 0 {
        HeaderPlain();
      } else {
        RowPlain(formatDate, ss[r - 1]);
      }
      LineRoundTrip(rows[r]);
    }
    SplitJoin(lines, '\n');
  }

  // ---------------------------------------------------------------------
  // the bank details form

  /** `toUpperCase` on the ASCII letters. */
  function UpperText(s: string): (r: string)
    ensures |r| == |s| && forall k :: 0 <= k < |s| ==> r[k] == UpperAscii(s[k])
  {
    MapSeq(UpperAscii, s)
  }

  /** Upper-cased text has no lower-case letter left, so upper-casing it again
      changes nothing. */
  lemma UpperTextIdempotent(s: string)
    ensures forall k :: 0 <= k < |s| ==> !IsLower(UpperText(s)[k])
    ensures UpperText(UpperText(s)) == UpperText(s)
  {
  }

  /** Upper-casing never alters an accepted IFSC. */
  lemma UpperKeepsIfsc(s: string)
    requires IsIfsc(s)
    ensures UpperText(s) == s
  {
    IfscShape(s);
  }

  /** What the page holds: the saved bank details, if any, the settlements,
      whether the dialog is open and the form being typed. */
  class FinanceView {
    var bank: Option<BankDetails>
    var settlements: seq<Settlement>
    var dialogOpen: bool
    var form: BankDetails

    constructor ()
      ensures bank.None? && settlements == [] && !dialogOpen
      ensures form == BankDetails("", "", "", "")
      ensures AddBankOffered()
    {
      bank := None;
      settlements := [];
      dialogOpen := false;
      form := BankDetails("", "", "", "");
    }

    /** The add-bank-details dialog is offered only while none are saved. */
    predicate AddBankOffered()
      reads this
    {
      bank.None?
    }

    /** `fetchFinanceData`, given each request's answer (`None` when it was
        not ok): an ok bank answer replaces the saved details, null included,
        and an ok settlements answer replaces the list; a failed one keeps
        what was shown. Add Bank Details is then offered exactly when no
        details are held. */
    method FetchFinanceData(bankAnswer: Option<Option<BankDetails>>, settlementsAnswer: Option<seq<Settlement>>)
      modifies this
      ensures bank == if bankAnswer.Some? then bankAnswer.value else old(bank)
      ensures settlements == if settlementsAnswer.Some? then settlementsAnswer.value else old(settlements)
      ensures dialogOpen == old(dialogOpen) && form == old(form)
      ensures AddBankOffered() <==> bank.None?
      ensures bankAnswer == Some(None) ==> AddBankOffered()
      ensures bankAnswer.Some? && bankAnswer.value.Some? ==> !AddBankOffered()
    {
      if bankAnswer.Some? {
        bank := bankAnswer.value;
      }
      if settlementsAnswer.Some? {
        settlements := settlementsAnswer.value;
      }
    }

    /** Typing in the IFSC field stores the text upper-cased and leaves the
        other fields as they were. */
    method TypeIfsc(text: string)
      modifies this
      ensures form == old(form).(ifsc := UpperText(text))
      ensures forall k :: 0 <= k < |form.ifsc| ==> !IsLower(form.ifsc[k])
      ensures bank == old(bank) && settlements == old(settlements) && dialogOpen == old(dialogOpen)
    {
      form := form.(ifsc := UpperText(text));
    }

    /** After the save request: a success closes the dialog and clears the
        form; a failure leaves everything as it was. Reloading the saved
        details is a separate fetch. */
    method HandleSubmitResponse(ok: bool)
      modifies this
      ensures ok ==> !dialogOpen && form == BankDetails("", "", "", "")
      ensures !ok ==> dialogOpen == old(dialogOpen) && form == old(form)
      ensures bank == old(bank) && settlements == old(settlements)
    {
      if ok {
        dialogOpen := false;
        form := BankDetails("", "", "", "");
      }
    }
  }
}
