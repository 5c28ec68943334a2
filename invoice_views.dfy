/**
 * The financial aggregation of invoices/views.py: building reservation and
 * payment lines from the parallel form lists, converting every payment to SAR,
 * summing payments per reservation number, working out each reservation's
 * remaining balance and status, and the invoice's grand totals.
 *
 * The form lists arrive already split out of the request (`request.POST.getlist`).
 * A numeric field is given as what `float(field.strip())` makes of it.
 */
module InvoiceViews {
  import opened Options
  import opened Text
  import opened InvoiceUtils

  // ---------------------------------------------------------------------------
  // Form fields

  /**
   * A numeric form field as Python reads it: blank (empty or whitespace only),
   * a number `float()` accepts, or non-blank text on which `float()` raises ValueError.
   */
  datatype NumberText = Blank | Number(value: real) | Unreadable

  /** A processing step's value, or the uncaught ValueError `float()` raised on the given line. */
  datatype Result<T> = Ok(value: T) | ValueError(line: nat)

  /** `s.strip() if s and s.strip() else "-"`: a trimmed text field, "-" when blank. */
  function TextField(s: string): (r: string)
    ensures r != []
  {
    if IsBlank(s) then "-" else Strip(s)
  }

  /**
   * A blank field becomes "-", any other is trimmed and then neither starts nor
   * ends with whitespace; normalising twice changes nothing more.
   */
  lemma TextFieldNormalizes(s: string)
    ensures IsBlank(s) ==> TextField(s) == "-"
    ensures !IsBlank(s) ==> TextField(s) == Strip(s)
    ensures var r := TextField(s); !IsSpace(r[0]) && !IsSpace(r[|r| - 1])
    ensures TextField(TextField(s)) == TextField(s)
  {
    var r := TextField(s);
    if IsBlank(s) {
      assert r == "-";
      assert !IsBlank(r) by { assert !IsSpace(r[0]); }
    } else {
      StripIdempotent(s);
      assert !IsBlank(r) by { assert !IsSpace(r[0]); }
    }
  }

  /**
   * `datetime.strptime(x.strip(), "%Y-%m-%d") if x and x.strip() else None` with
   * the ValueError caught: None for a blank field or one strptime rejects.
   */
  function DateField(s: string): (r: Option<Date>)
    ensures IsBlank(s) ==> r.None?
    ensures r.Some? ==> ValidDate(r.value)
  {
    if IsBlank(s) then None else StrpTimeIso(Strip(s))
  }

  /** A date typed as YYYY-MM-DD, with or without surrounding whitespace, is read as that date. */
  lemma DateFieldReads(d: Date, before: string, after: string)
    requires ValidDate(d) && IsBlank(before) && IsBlank(after)
    ensures DateField(before + IsoText(d) + after) == Some(d)
  {
    var x := IsoText(d);
    var s := before + x + after;
    assert x[0] == Pad4(d.year)[0] && x[|x| - 1] == Pad2(d.day)[1];
    StripSurrounded(before, x, after);
    assert !IsBlank(s) by { assert s[|before|] == x[0]; }
    StrpTimeIsoRoundTrip(d);
  }

  /** `float(x.strip()) if x and x.strip() else default`, for a field `float()` can read. */
  function NumberOr(t: NumberText, default: real): real
    requires !t.Unreadable?
  {
    if t.Number? then t.value else default
  }

  /** `zip` stops at the shortest list. */
  function Min(a: nat, b: nat): (m: nat)
    ensures m <= a && m <= b && (m == a || m == b)
  {
    if a <= b then a else b
  }

  // ---------------------------------------------------------------------------
  // process_reservations

  /** One line of the reservation table as posted: the five fields `zip` puts together. */
  datatype ReservationInput = ReservationInput(
    number: string,
    hotel: string,
    checkIn: string,
    checkOut: string,
    total: NumberText)

  /** The five lists `process_reservations` reads from the form. */
  datatype ReservationForm = ReservationForm(
    numbers: seq<string>,
    hotels: seq<string>,
    checkIns: seq<string>,
    checkOuts: seq<string>,
    totals: seq<NumberText>)
  {
    /** `zip` of the five lists: one line per position, as many as the shortest list has. */
    function Lines(): (ls: seq<ReservationInput>)
      ensures |ls| <= |numbers| && |ls| <= |hotels| && |ls| <= |checkIns| && |ls| <= |checkOuts| && |ls| <= |totals|
      ensures |ls| == |numbers| || |ls| == |hotels| || |ls| == |checkIns| || |ls| == |checkOuts| || |ls| == |totals|
      ensures forall i :: 0 <= i < |ls| ==>
        ls[i] == ReservationInput(numbers[i], hotels[i], checkIns[i], checkOuts[i], totals[i])
    {
      var n := Min(Min(Min(Min(|numbers|, |hotels|), |checkIns|), |checkOuts|), |totals|);
      seq(n, i requires 0 <= i < n => ReservationInput(numbers[i], hotels[i], checkIns[i], checkOuts[i], totals[i]))
    }
  }

  /** One entry of the reservation list built by `process_reservations`. */
  datatype Reservation = Reservation(
    number: string,
    hotel: string,
    checkIn: Option<Date>,
    checkOut: Option<Date>,
    totalInt: int)
  {
    /** The entry `total`, which `process_reservations` sets to `total_int` thousand-separated. */
    function Total(): (s: string)
      ensures RemoveCommas(s) == IntString(totalInt)
    {
      FormatThousands(totalInt)
    }
  }

  /**
   * The reservation `process_reservations` builds from one line: trimmed texts
   * ("-" when blank), dates read as YYYY-MM-DD, and the total rounded to whole
   * SAR (0 when blank), shown thousand-separated.
   */
  function ReservationLine(l: ReservationInput): (r: Reservation)
    requires !l.total.Unreadable?
    ensures r.number != [] && r.hotel != []
    ensures l.total.Blank? ==> r.totalInt == 0
    ensures l.total.Number? ==> r.totalInt == RoundHalfEven(l.total.value)
  {
    RoundHalfEvenExamples(0);
    var totalInt := RoundHalfEven(NumberOr(l.total, 0.0));
    Reservation(TextField(l.number), TextField(l.hotel), DateField(l.checkIn), DateField(l.checkOut), totalInt)
  }

  /** What each field of a reservation says about the form fields it came from. */
  lemma ReservationLineFields(l: ReservationInput)
    requires !l.total.Unreadable?
    ensures var r := ReservationLine(l);
      && (IsBlank(l.number) ==> r.number == "-")
      && (!IsBlank(l.number) ==> r.number == Strip(l.number))
      && (IsBlank(l.hotel) ==> r.hotel == "-")
      && (!IsBlank(l.hotel) ==> r.hotel == Strip(l.hotel))
      && (IsBlank(l.checkIn) ==> r.checkIn.None?)
      && (r.checkIn.Some? ==> ValidDate(r.checkIn.value))
      && (IsBlank(l.checkOut) ==> r.checkOut.None?)
      && (r.checkOut.Some? ==> ValidDate(r.checkOut.value))
      && (l.total.Blank? ==> r.totalInt == 0 && r.Total() == "0")
      && (l.total.Number? ==> -0.5 <= r.totalInt as real - l.total.value <= 0.5)
      && (l.total.Number? ==> r.totalInt == RoundHalfEven(l.total.value))
      && r.checkIn == DateField(l.checkIn) && r.checkOut == DateField(l.checkOut)
      && RemoveCommas(r.Total()) == IntString(r.totalInt)
  {
    TextFieldNormalizes(l.number);
    TextFieldNormalizes(l.hotel);
    RoundHalfEvenExamples(0);
    FormatThousandsSmall();
  }

  /** No total among the first `n` lines is text `float()` rejects. */
  predicate TotalsReadable(ls: seq<ReservationInput>, n: nat)
    requires n <= |ls|
  {
    n == 0 || (TotalsReadable(ls, n - 1) && !ls[n - 1].total.Unreadable?)
  }

  /** Line `line` is the first whose total `float()` rejects. */
  predicate FirstUnreadableTotal(ls: seq<ReservationInput>, line: nat)
  {
    line < |ls| && ls[line].total.Unreadable? && TotalsReadable(ls, line)
  }

  /** The reservations `process_reservations` builds from the first `n` lines. */
  function ReservationList(ls: seq<ReservationInput>, n: nat): (rs: seq<Reservation>)
    requires n <= |ls| && TotalsReadable(ls, n)
    ensures |rs| == n
  {
    if n == 0 then [] else ReservationList(ls, n - 1) + [ReservationLine(ls[n - 1])]
  }

  /** Reservation `j` is built from line `j`, whose total could be read. */
  lemma {:induction false} ReservationListAt(ls: seq<ReservationInput>, n: nat, j: nat)
    requires n <= |ls| && TotalsReadable(ls, n) && j < n
    ensures !ls[j].total.Unreadable?
    ensures ReservationList(ls, n)[j] == ReservationLine(ls[j])
  {
    if j < n - 1 {
      ReservationListAt(ls, n - 1, j);
    }
  }

  /** The sum of `total_int` over a reservation list. */
  function SumTotals(rs: seq<Reservation>): int
  {
    if rs == [] then 0 else SumTotals(rs[..|rs| - 1]) + rs[|rs| - 1].totalInt
  }

  /** `total_reservation_sar += total_int`: one more reservation adds its total. */
  lemma SumTotalsAppend(rs: seq<Reservation>, r: Reservation)
    ensures SumTotals(rs + [r]) == SumTotals(rs) + r.totalInt
  {
    assert (rs + [r])[..|rs|] == rs;
  }

  /** The sum of `total_int` over the reservations built from the first `n` lines. */
  function LinesTotal(ls: seq<ReservationInput>, n: nat): int
    requires n <= |ls| && TotalsReadable(ls, n)
  {
    if n == 0 then 0 else LinesTotal(ls, n - 1) + ReservationLine(ls[n - 1]).totalInt
  }

  /** Summing over the built list is summing line by line. */
  lemma {:induction false} SumTotalsOfList(ls: seq<ReservationInput>, n: nat)
    requires n <= |ls| && TotalsReadable(ls, n)
    ensures SumTotals(ReservationList(ls, n)) == LinesTotal(ls, n)
  {
    if n > 0 {
      var rs := ReservationList(ls, n - 1);
      var r := ReservationLine(ls[n - 1]);
      assert ReservationList(ls, n) == rs + [r];
      SumTotalsOfList(ls, n - 1);
      SumTotalsAppend(rs, r);
    }
  }

  /** One pass of the loop of `process_reservations`: list and sum both grow by the line's reservation. */
  lemma ReservationStep(ls: seq<ReservationInput>, i: nat, reservation: Reservation)
    requires i < |ls| && TotalsReadable(ls, i) && !ls[i].total.Unreadable?
    requires reservation == ReservationLine(ls[i])
    ensures TotalsReadable(ls, i + 1)
    ensures ReservationList(ls, i + 1) == ReservationList(ls, i) + [reservation]
    ensures LinesTotal(ls, i + 1) == LinesTotal(ls, i) + reservation.totalInt
  {
  }

  /** What `process_reservations` returns. */
  datatype Reservations = Reservations(reservations: seq<Reservation>, totalReservationSar: int)

  /**
   * What `process_reservations` returns when every total is readable: one
   * reservation per line, and the sum of their `total_int`.
   */
  predicate ReservationsOf(ls: seq<ReservationInput>, v: Reservations)
  {
    && TotalsReadable(ls, |ls|)
    && v.reservations == ReservationList(ls, |ls|)
    && v.totalReservationSar == SumTotals(v.reservations)
  }

  /**
   * The loop of `process_reservations` over the zipped lines: the reservations
   * and their total as above, or the ValueError `float()` raises at the first
   * line whose total it cannot read.
   */
  method ProcessReservationLines(lines: seq<ReservationInput>) returns (r: Result<Reservations>)
    ensures r.ValueError? ==> FirstUnreadableTotal(lines, r.line)
    ensures r.Ok? ==> ReservationsOf(lines, r.value)
  {
    var reservations: seq<Reservation> := [];
    var totalReservationSar := 0;
    var i := 0;
    while i < |lines|
      invariant 0 <= i <= |lines|
      invariant TotalsReadable(lines, i)
      invariant reservations == ReservationList(lines, i)
      invariant totalReservationSar == LinesTotal(lines, i)
    {
      var l := lines[i];
      if l.total.Unreadable? {
        return ValueError(i);
      }
      var reservation := ReservationLine(l);
      ReservationStep(lines, i, reservation);
      reservations := reservations + [reservation];
      totalReservationSar := totalReservationSar + reservation.totalInt;
      i := i + 1;
    }
    SumTotalsOfList(lines, |lines|);
    return Ok(Reservations(reservations, totalReservationSar));
  }

  /** `process_reservations`: zip the form's lists, then run the loop over the lines. */
  method ProcessReservations(f: ReservationForm) returns (r: Result<Reservations>)
    ensures r.ValueError? ==> FirstUnreadableTotal(f.Lines(), r.line)
    ensures r.Ok? ==> ReservationsOf(f.Lines(), r.value)
  {
    r := ProcessReservationLines(f.Lines());
  }

  // ---------------------------------------------------------------------------
  // process_payments

  /** One line of the payment table as posted: the seven fields `zip` puts together. */
  datatype PaymentInput = PaymentInput(
    reservationNo: string,
    date: string,
    payMethod: string,
    amount: NumberText,
    currency: string,
    exchange: NumberText,
    note: string)

  /** The seven lists `process_payments` reads from the form. */
  datatype PaymentForm = PaymentForm(
    reservationNos: seq<string>,
    dates: seq<string>,
    methods: seq<string>,
    amounts: seq<NumberText>,
    currencies: seq<string>,
    exchanges: seq<NumberText>,
    notes: seq<string>)
  {
    /** `zip` of the seven lists: one line per position, as many as the shortest list has. */
    function Lines(): (ls: seq<PaymentInput>)
      ensures |ls| <= |reservationNos| && |ls| <= |dates| && |ls| <= |methods| && |ls| <= |amounts|
      ensures |ls| <= |currencies| && |ls| <= |exchanges| && |ls| <= |notes|
      ensures |ls| == |reservationNos| || |ls| == |dates| || |ls| == |methods| || |ls| == |amounts|
           || |ls| == |currencies| || |ls| == |exchanges| || |ls| == |notes|
      ensures forall i :: 0 <= i < |ls| ==>
        ls[i] == PaymentInput(reservationNos[i], dates[i], methods[i], amounts[i], currencies[i], exchanges[i], notes[i])
    {
      var n := Min(Min(Min(Min(Min(Min(|reservationNos|, |dates|), |methods|), |amounts|), |currencies|), |exchanges|), |notes|);
      seq(n, i requires 0 <= i < n =>
        PaymentInput(reservationNos[i], dates[i], methods[i], amounts[i], currencies[i], exchanges[i], notes[i]))
    }
  }

  /**
   * One entry of the payment list built by `process_payments`; `exchange` is None
   * where the invoice shows "-". The rounded amount and SAR amount are kept as
   * integers; the entries `amount` and `amount_sar` are their thousand-separated texts.
   */
  datatype Payment = Payment(
    reservationNo: string,
    date: Option<Date>,
    payMethod: string,
    amountInt: int,
    currency: string,
    exchange: Option<real>,
    amountSarInt: int,
    note: string)
  {
    /** The entry `amount`: `int(round(amount_float))` thousand-separated. */
    function Amount(): (s: string)
      ensures RemoveCommas(s) == IntString(amountInt)
    {
      FormatThousands(amountInt)
    }

    /** The entry `amount_sar`: `amount_sar_int` thousand-separated. */
    function AmountSar(): (s: string)
      ensures RemoveCommas(s) == IntString(amountSarInt)
    {
      FormatThousands(amountSarInt)
    }
  }

  /** `float()` can read the line's amount and rate: each is blank or a number. */
  predicate CanRead(l: PaymentInput)
  {
    !l.amount.Unreadable? && !l.exchange.Unreadable?
  }

  /** The normalised reservation number a payment is booked under. */
  function PaymentKey(l: PaymentInput): (k: string)
    ensures k != []
    ensures IsBlank(l.reservationNo) ==> k == "-"
  {
    TextField(l.reservationNo)
  }

  /**
   * The payment in whole SAR: `int(round(convert_to_sar(amount, currency.upper(), rate)))`
   * with a blank amount read as 0 and a blank rate as 1.
   */
  function SarAmount(l: PaymentInput): (a: int)
    requires CanRead(l)
    ensures -0.5 <= a as real - ConvertToSar(NumberOr(l.amount, 0.0), Upper(l.currency), NumberOr(l.exchange, 1.0)) <= 0.5
  {
    RoundHalfEven(ConvertToSar(NumberOr(l.amount, 0.0), Upper(l.currency), NumberOr(l.exchange, 1.0)))
  }

  /** What the SAR amount of a payment is, case by case of its upper-cased currency. */
  lemma SarAmountCases(l: PaymentInput)
    requires CanRead(l)
    ensures var a, rate, c := NumberOr(l.amount, 0.0), NumberOr(l.exchange, 1.0), Upper(l.currency);
      && (l.amount.Blank? ==> a == 0.0 && SarAmount(l) == 0)
      && (l.exchange.Blank? ==> rate == 1.0)
      && (c == "SAR" ==> SarAmount(l) == RoundHalfEven(a))
      && (c == "IDR" && rate != 0.0 ==> SarAmount(l) == RoundHalfEven(a / rate))
      && (c == "IDR" && rate == 0.0 ==> SarAmount(l) == 0)
      && (c != "SAR" && c != "IDR" ==> SarAmount(l) == RoundHalfEven(a * rate))
  {
    var a, rate, c := NumberOr(l.amount, 0.0), NumberOr(l.exchange, 1.0), Upper(l.currency);
    assert SarAmount(l) == RoundHalfEven(ConvertToSar(a, c, rate));
    if l.amount.Blank? {
      assert ConvertToSar(a, c, rate) == 0.0;
      RoundHalfEvenExamples(0);
    }
  }

  /** The payment `process_payments` builds from one line. */
  function PaymentLine(l: PaymentInput): (p: Payment)
    requires CanRead(l)
    ensures p.reservationNo == PaymentKey(l) && p.payMethod != [] && p.note != []
    ensures p.exchange.None? <==> p.currency == "SAR"
    ensures p.amountSarInt == SarAmount(l)
    ensures p.amountInt == RoundHalfEven(NumberOr(l.amount, 0.0))
    ensures p.date == DateField(l.date)
  {
    var currency := Upper(l.currency);
    Payment(PaymentKey(l), DateField(l.date), TextField(l.payMethod),
            RoundHalfEven(NumberOr(l.amount, 0.0)), currency,
            if currency != "SAR" then Some(NumberOr(l.exchange, 1.0)) else None,
            SarAmount(l), TextField(l.note))
  }

  /** What each field of a payment says about the form fields it came from. */
  lemma PaymentLineFields(l: PaymentInput)
    requires CanRead(l)
    ensures var p := PaymentLine(l);
      && (IsBlank(l.reservationNo) ==> p.reservationNo == "-")
      && (!IsBlank(l.reservationNo) ==> p.reservationNo == Strip(l.reservationNo))
      && (IsBlank(l.payMethod) ==> p.payMethod == "-")
      && (!IsBlank(l.payMethod) ==> p.payMethod == Strip(l.payMethod))
      && (IsBlank(l.note) ==> p.note == "-")
      && (!IsBlank(l.note) ==> p.note == Strip(l.note))
      && (IsBlank(l.date) ==> p.date.None?)
      && (p.date.Some? ==> ValidDate(p.date.value))
      && p.currency == Upper(l.currency)
      && (forall k :: 0 <= k < |p.currency| ==> !('a' <= p.currency[k] <= 'z'))
      && (p.exchange.None? <==> p.currency == "SAR")
      && (l.exchange.Blank? && p.exchange.Some? ==> p.exchange.value == 1.0)
      && (l.amount.Blank? ==> p.amountInt == 0 && p.Amount() == "0")
      && (l.amount.Number? ==> -0.5 <= p.amountInt as real - l.amount.value <= 0.5)
      && p.amountInt == RoundHalfEven(NumberOr(l.amount, 0.0))
      && p.date == DateField(l.date)
      && (l.exchange.Number? && p.exchange.Some? ==> p.exchange.value == l.exchange.value)
      && p.amountSarInt == SarAmount(l)
      && RemoveCommas(p.AmountSar()) == IntString(SarAmount(l))
  {
    TextFieldNormalizes(l.reservationNo);
    TextFieldNormalizes(l.payMethod);
    TextFieldNormalizes(l.note);
    UpperIdempotent(l.currency);
    RoundHalfEvenExamples(0);
    FormatThousandsSmall();
  }

  /** No amount and no rate among the first `n` lines is text `float()` rejects. */
  predicate PaymentsReadable(ls: seq<PaymentInput>, n: nat)
    requires n <= |ls|
  {
    n == 0 || (PaymentsReadable(ls, n - 1) && CanRead(ls[n - 1]))
  }

  /** Line `line` is the first whose amount or rate `float()` rejects. */
  predicate FirstUnreadablePayment(ls: seq<PaymentInput>, line: nat)
  {
    line < |ls| && !CanRead(ls[line]) && PaymentsReadable(ls, line)
  }

  /** Every line of a readable prefix can be read. */
  lemma {:induction false} PaymentsReadableAt(ls: seq<PaymentInput>, n: nat, j: nat)
    requires n <= |ls| && PaymentsReadable(ls, n) && j < n
    ensures CanRead(ls[j])
  {
    if j < n - 1 {
      PaymentsReadableAt(ls, n - 1, j);
    }
  }

  /** The payments `process_payments` builds from the first `n` lines. */
  function PaymentList(ls: seq<PaymentInput>, n: nat): (ps: seq<Payment>)
    requires n <= |ls| && PaymentsReadable(ls, n)
    ensures |ps| == n
  {
    if n == 0 then [] else PaymentList(ls, n - 1) + [PaymentLine(ls[n - 1])]
  }

  /** One more readable line: the list grows by that line's payment and the total by its SAR amount. */
  lemma PaymentListStep(ls: seq<PaymentInput>, i: nat, payment: Payment, amountSar: int)
    requires i < |ls| && PaymentsReadable(ls, i) && CanRead(ls[i])
    requires payment == PaymentLine(ls[i]) && amountSar == SarAmount(ls[i])
    ensures PaymentsReadable(ls, i + 1)
    ensures PaymentList(ls, i + 1) == PaymentList(ls, i) + [payment]
    ensures PaidTotal(ls, i + 1) == PaidTotal(ls, i) + amountSar
  {
  }

  /** Payment `j` is built from line `j`. */
  lemma {:induction false} PaymentListAt(ls: seq<PaymentInput>, n: nat, j: nat)
    requires n <= |ls| && PaymentsReadable(ls, n) && j < n
    ensures CanRead(ls[j])
    ensures PaymentList(ls, n)[j] == PaymentLine(ls[j])
  {
    PaymentsReadableAt(ls, n, j);
    if j < n - 1 {
      PaymentListAt(ls, n - 1, j);
    }
  }

  /** `total_paid_sar` after the first `n` lines: the sum of their SAR amounts. */
  function PaidTotal(ls: seq<PaymentInput>, n: nat): int
    requires n <= |ls| && PaymentsReadable(ls, n)
  {
    if n == 0 then 0 else PaidTotal(ls, n - 1) + SarAmount(ls[n - 1])
  }

  /** `payments_by_reservation.get(key, 0)`. */
  function PaidFor(m: map<string, int>, key: string): int
  {
    if key in m then m[key] else 0
  }

  /** `payments_by_reservation[key] += amount` on a bucket that reads as `get(key, 0)` when it is not yet open. */
  function AddTo(m: map<string, int>, key: string, amount: int): (r: map<string, int>)
    ensures r.Keys == m.Keys + {key}
    ensures r[key] == PaidFor(m, key) + amount
    ensures forall k :: k in m && k != key ==> r[k] == m[k]
  {
    m[key := PaidFor(m, key) + amount]
  }

  /**
   * `payments_by_reservation` after the first `n` lines: each line adds its SAR
   * amount to the bucket of its normalised reservation number, opened at 0 the
   * first time that number is seen.
   */
  function PaidByReservation(ls: seq<PaymentInput>, n: nat): (m: map<string, int>)
    requires n <= |ls| && PaymentsReadable(ls, n)
  {
    if n == 0 then map[]
    else AddTo(PaidByReservation(ls, n - 1), PaymentKey(ls[n - 1]), SarAmount(ls[n - 1]))
  }

  /** Opening a missing bucket at 0 and then adding to it adds to `get(key, 0)`. */
  lemma BucketAdd(m: map<string, int>, ready: map<string, int>, k: string, a: int)
    requires ready == if k in m then m else m[k := 0]
    ensures k in ready && ready[k := ready[k] + a] == AddTo(m, k, a)
  {
  }

  /** One more line: opening its bucket when missing and adding its SAR amount gives the buckets after it. */
  lemma BucketStep(ls: seq<PaymentInput>, i: nat, before: map<string, int>, ready: map<string, int>, k: string, a: int)
    requires i < |ls| && PaymentsReadable(ls, i) && CanRead(ls[i])
    requires k == PaymentKey(ls[i]) && a == SarAmount(ls[i])
    requires before == PaidByReservation(ls, i)
    requires ready == if k in before then before else before[k := 0]
    ensures PaymentsReadable(ls, i + 1)
    ensures k in ready && ready[k := ready[k] + a] == PaidByReservation(ls, i + 1)
  {
    BucketAdd(before, ready, k, a);
  }

  /** What `process_payments` returns. */
  datatype Payments = Payments(payments: seq<Payment>, totalPaidSar: int, byReservation: map<string, int>)

  /**
   * What `process_payments` returns when every amount and rate is readable: one
   * payment per line, the total of their SAR amounts, and the SAR amounts summed
   * per normalised reservation number.
   */
  predicate PaymentsOf(ls: seq<PaymentInput>, v: Payments)
  {
    && PaymentsReadable(ls, |ls|)
    && v.payments == PaymentList(ls, |ls|)
    && v.totalPaidSar == PaidTotal(ls, |ls|)
    && v.byReservation == PaidByReservation(ls, |ls|)
  }

  /**
   * The loop of `process_payments` over the zipped lines: the payments, their
   * total and the per-reservation sums as above, or the ValueError `float()`
   * raises at the first line whose amount or rate it cannot read.
   */
  method ProcessPaymentLines(lines: seq<PaymentInput>) returns (r: Result<Payments>)
    ensures r.ValueError? ==> FirstUnreadablePayment(lines, r.line)
    ensures r.Ok? ==> PaymentsOf(lines, r.value)
  {
    var payments: seq<Payment> := [];
    var totalPaidSar := 0;
    var paymentsByReservation: map<string, int> := map[];
    var i := 0;
    while i < |lines|
      invariant 0 <= i <= |lines|
      invariant PaymentsReadable(lines, i)
      invariant payments == PaymentList(lines, i)
      invariant totalPaidSar == PaidTotal(lines, i)
      invariant paymentsByReservation == PaidByReservation(lines, i)
    {
      var l := lines[i];
      if l.amount.Unreadable? || l.exchange.Unreadable? {
        return ValueError(i);
      }
      var amountSarInt := SarAmount(l);
      var resNumber := PaymentKey(l);
      ghost var before := paymentsByReservation;
      if resNumber !in paymentsByReservation {
        paymentsByReservation := paymentsByReservation[resNumber := 0];
      }
      BucketStep(lines, i, before, paymentsByReservation, resNumber, amountSarInt);
      paymentsByReservation := paymentsByReservation[resNumber := paymentsByReservation[resNumber] + amountSarInt];
      var payment := PaymentLine(l);
      PaymentListStep(lines, i, payment, amountSarInt);
      payments := payments + [payment];
      totalPaidSar := totalPaidSar + amountSarInt;
      i := i + 1;
    }
    return Ok(Payments(payments, totalPaidSar, paymentsByReservation));
  }

  /** `process_payments`: zip the form's lists, then run the loop over the lines. */
  method ProcessPayments(f: PaymentForm) returns (r: Result<Payments>)
    ensures r.ValueError? ==> FirstUnreadablePayment(f.Lines(), r.line)
    ensures r.Ok? ==> PaymentsOf(f.Lines(), r.value)
  {
    r := ProcessPaymentLines(f.Lines());
  }

  // ---------------------------------------------------------------------------
  // What payments_by_reservation holds

  /** The SAR amounts of the first `n` lines booked under `key`, summed. */
  function PaidOfKey(ls: seq<PaymentInput>, n: nat, key: string): int
    requires n <= |ls| && PaymentsReadable(ls, n)
  {
    if n == 0 then 0
    else PaidOfKey(ls, n - 1, key) + (if PaymentKey(ls[n - 1]) == key then SarAmount(ls[n - 1]) else 0)
  }

  /** The buckets are opened for exactly the normalised reservation numbers of the lines. */
  lemma {:induction false} PaidByReservationKeys(ls: seq<PaymentInput>, n: nat)
    requires n <= |ls| && PaymentsReadable(ls, n)
    ensures PaidByReservation(ls, n).Keys == set j | 0 <= j < n :: PaymentKey(ls[j])
  {
    if n > 0 {
      PaidByReservationKeys(ls, n - 1);
      var s, s' := set j | 0 <= j < n :: PaymentKey(ls[j]), set j | 0 <= j < n - 1 :: PaymentKey(ls[j]);
      assert s == s' + {PaymentKey(ls[n - 1])} by {
        forall x | x in s ensures x in s' + {PaymentKey(ls[n - 1])} {
          var j :| 0 <= j < n && PaymentKey(ls[j]) == x;
          if j < n - 1 {
            assert x in s';
          }
        }
      }
    }
  }

  /** Each bucket holds the SAR amounts of the lines booked under it; an unopened bucket reads as 0. */
  lemma {:induction false} PaidByReservationValues(ls: seq<PaymentInput>, n: nat, key: string)
    requires n <= |ls| && PaymentsReadable(ls, n)
    ensures PaidFor(PaidByReservation(ls, n), key) == PaidOfKey(ls, n, key)
  {
    if n > 0 {
      PaidByReservationValues(ls, n - 1, key);
    }
  }

  /** The sum of a map's values, each bucket counted once. */
  ghost function SumValues(m: map<string, int>): int
    decreases |m|
  {
    if m == map[] then 0
    else
      var k :| k in m;
      m[k] + SumValues(m - {k})
  }

  /** The sum does not depend on which bucket is taken out first. */
  lemma {:induction false} SumValuesRemove(m: map<string, int>, k: string)
    requires k in m
    ensures SumValues(m) == m[k] + SumValues(m - {k})
    decreases |m|
  {
    var j :| j in m && SumValues(m) == m[j] + SumValues(m - {j});
    if j != k {
      SumValuesRemove(m - {j}, k);
      SumValuesRemove(m - {k}, j);
      assert m - {j} - {k} == m - {k} - {j};
    }
  }

  /** Adding `a` to one bucket adds `a` to the sum of the buckets. */
  lemma SumValuesAddTo(m: map<string, int>, k: string, a: int)
    ensures SumValues(AddTo(m, k, a)) == SumValues(m) + a
  {
    var m' := AddTo(m, k, a);
    SumValuesRemove(m', k);
    if k in m {
      SumValuesRemove(m, k);
      assert m' - {k} == m - {k};
    } else {
      assert m' - {k} == m;
    }
  }

  /** The buckets together hold `total_paid_sar`: every SAR amount lands in exactly one bucket. */
  lemma {:induction false} PaidByReservationSum(ls: seq<PaymentInput>, n: nat)
    requires n <= |ls| && PaymentsReadable(ls, n)
    ensures SumValues(PaidByReservation(ls, n)) == PaidTotal(ls, n)
  {
    if n > 0 {
      PaidByReservationSum(ls, n - 1);
      SumValuesAddTo(PaidByReservation(ls, n - 1), PaymentKey(ls[n - 1]), SarAmount(ls[n - 1]));
    }
  }

  // ---------------------------------------------------------------------------
  // calculate_remaining_per_reservation

  /** The CSS classes `calculate_remaining_per_reservation` gives a reservation. */
  datatype Status = RemainingPaid | RemainingUnpaid | RemainingPartial

  function StatusClass(s: Status): string
  {
    match s
    case RemainingPaid => "remaining-paid"
    case RemainingUnpaid => "remaining-unpaid"
    case RemainingPartial => "remaining-partial"
  }

  /** More than half the total remains: `remaining > total * 0.5`, stated on integers. */
  predicate MoreThanHalf(remaining: int, total: int)
  {
    2 * remaining > total
  }

  /** The integer statement is the source's comparison with the float `total * 0.5`, which is exact here. */
  lemma MoreThanHalfExact(remaining: int, total: int)
    ensures MoreThanHalf(remaining, total) <==> remaining as real > total as real * 0.5
  {
  }

  /**
   * The status rule, checked in this order: nothing remaining is "paid"; more
   * than half the total remaining is "unpaid"; anything else is "partial".
   */
  function StatusOf(remaining: int, total: int): (s: Status)
    ensures s == RemainingPaid <==> remaining == 0
    ensures s == RemainingUnpaid ==> remaining as real > total as real * 0.5
    ensures s == RemainingPartial ==> remaining != 0 && remaining as real <= total as real * 0.5
    ensures total >= 0 && remaining < 0 ==> s == RemainingPartial
  {
    if remaining == 0 then RemainingPaid
    else if MoreThanHalf(remaining, total) then RemainingUnpaid
    else RemainingPartial
  }

  /** "paid" exactly when the payments equal the total. */
  lemma StatusPaidIff(total: int, paid: int)
    ensures StatusOf(total - paid, total) == RemainingPaid <==> paid == total
  {
  }

  /** "unpaid" exactly when something remains and less than half the total was paid. */
  lemma StatusUnpaidIff(total: int, paid: int)
    ensures StatusOf(total - paid, total) == RemainingUnpaid <==> paid != total && 2 * paid < total
  {
  }

  /** "partial" exactly when the payments differ from the total and reach at least half of it. */
  lemma StatusPartialIff(total: int, paid: int)
    ensures StatusOf(total - paid, total) == RemainingPartial <==> paid != total && 2 * paid >= total
  {
  }

  /** An overpaid reservation with a non-negative total is "partial", not "paid". */
  lemma StatusOverpaid(total: int, paid: int)
    requires total >= 0 && paid > total
    ensures StatusOf(total - paid, total) == RemainingPartial
  {
  }

  /** A total of 1000: all paid, 400 paid, 700 paid, and 1200 paid. */
  lemma StatusExamples()
    ensures StatusOf(1000 - 1000, 1000) == RemainingPaid
    ensures StatusOf(1000 - 400, 1000) == RemainingUnpaid
    ensures StatusOf(1000 - 700, 1000) == RemainingPartial
    ensures StatusOf(1000 - 1200, 1000) == RemainingPartial
  {
  }

  /** One entry of the list `calculate_remaining_per_reservation` returns. */
  datatype ReservationBalance = ReservationBalance(
    number: string,
    hotel: string,
    checkIn: Option<Date>,
    checkOut: Option<Date>,
    total: string,
    remaining: string,
    remainingClass: Status)

  /** What is left of a reservation's total after the payments booked under its number. */
  function RemainingFor(r: Reservation, byReservation: map<string, int>): int
  {
    r.totalInt - PaidFor(byReservation, r.number)
  }

  /** The balance line `calculate_remaining_per_reservation` makes of one reservation. */
  function BalanceOf(r: Reservation, byReservation: map<string, int>): (b: ReservationBalance)
    ensures b.number == r.number && b.hotel == r.hotel && b.total == r.Total()
    ensures b.checkIn == r.checkIn && b.checkOut == r.checkOut
    ensures RemoveCommas(b.remaining) == IntString(r.totalInt - PaidFor(byReservation, r.number))
    ensures b.remainingClass == StatusOf(r.totalInt - PaidFor(byReservation, r.number), r.totalInt)
  {
    var remaining := RemainingFor(r, byReservation);
    ReservationBalance(r.number, r.hotel, r.checkIn, r.checkOut, r.Total(), FormatThousands(remaining),
                       StatusOf(remaining, r.totalInt))
  }

  /**
   * A balance line copies the reservation's fields, shows the total less the
   * payments under its number (thousand-separated), and carries the CSS class
   * of the status rule: "remaining-paid" exactly when those payments equal the
   * total, "remaining-unpaid" when they fall short of half of it, and
   * "remaining-partial" otherwise.
   */
  lemma BalanceOfFields(r: Reservation, byReservation: map<string, int>)
    ensures var b := BalanceOf(r, byReservation);
      && b.number == r.number && b.hotel == r.hotel && b.total == r.Total()
      && b.checkIn == r.checkIn && b.checkOut == r.checkOut
      && RemoveCommas(b.remaining) == IntString(r.totalInt - PaidFor(byReservation, r.number))
      && (b.remainingClass == RemainingPaid <==> PaidFor(byReservation, r.number) == r.totalInt)
      && (b.remainingClass == RemainingUnpaid <==>
            PaidFor(byReservation, r.number) != r.totalInt && 2 * PaidFor(byReservation, r.number) < r.totalInt)
      && (StatusClass(b.remainingClass) == "remaining-paid" <==> PaidFor(byReservation, r.number) == r.totalInt)
      && (StatusClass(b.remainingClass) == "remaining-unpaid" <==>
            PaidFor(byReservation, r.number) != r.totalInt && 2 * PaidFor(byReservation, r.number) < r.totalInt)
      && (StatusClass(b.remainingClass) == "remaining-partial" <==>
            PaidFor(byReservation, r.number) != r.totalInt && 2 * PaidFor(byReservation, r.number) >= r.totalInt)
  {
    StatusPaidIff(r.totalInt, PaidFor(byReservation, r.number));
    StatusUnpaidIff(r.totalInt, PaidFor(byReservation, r.number));
    StatusPartialIff(r.totalInt, PaidFor(byReservation, r.number));
  }

  /** The balance lines of the first `n` reservations, in their order. */
  function BalanceList(rs: seq<Reservation>, byReservation: map<string, int>, n: nat): (bs: seq<ReservationBalance>)
    requires n <= |rs|
    ensures |bs| == n
  {
    if n == 0 then [] else BalanceList(rs, byReservation, n - 1) + [BalanceOf(rs[n - 1], byReservation)]
  }

  /** Balance line `j` is made of reservation `j`. */
  lemma {:induction false} BalanceListAt(rs: seq<Reservation>, byReservation: map<string, int>, n: nat, j: nat)
    requires j < n <= |rs|
    ensures BalanceList(rs, byReservation, n)[j] == BalanceOf(rs[j], byReservation)
  {
    if j < n - 1 {
      BalanceListAt(rs, byReservation, n - 1, j);
    } else {
      assert rs[j] == rs[n - 1];
    }
  }

  /** The body of the loop in `calculate_remaining_per_reservation`: one reservation's balance line. */
  method BalanceLine(res: Reservation, byReservation: map<string, int>) returns (balance: ReservationBalance)
    ensures balance == BalanceOf(res, byReservation)
  {
    var paidForThis := PaidFor(byReservation, res.number);
    var remainingForThis := res.totalInt - paidForThis;
    var remainingText := FormatThousands(remainingForThis);
    var remainingClass;
    if remainingForThis == 0 {
      remainingClass := RemainingPaid;
    } else if MoreThanHalf(remainingForThis, res.totalInt) {
      remainingClass := RemainingUnpaid;
    } else {
      remainingClass := RemainingPartial;
    }
    assert remainingClass == StatusOf(remainingForThis, res.totalInt);
    balance := ReservationBalance(res.number, res.hotel, res.checkIn, res.checkOut, res.Total(),
                                  remainingText, remainingClass);
    assert remainingForThis == RemainingFor(res, byReservation);
  }

  /**
   * `calculate_remaining_per_reservation`: the reservations in their order, each
   * with what remains of its total after the payments recorded under its number
   * (none recorded counting as 0), and the status of that remainder.
   */
  method CalculateRemainingPerReservation(reservations: seq<Reservation>, byReservation: map<string, int>)
    returns (updated: seq<ReservationBalance>)
    ensures |updated| == |reservations|
    ensures forall i :: 0 <= i < |reservations| ==> updated[i] == BalanceOf(reservations[i], byReservation)
  {
    updated := [];
    var i := 0;
    while i < |reservations|
      invariant 0 <= i <= |reservations|
      invariant updated == BalanceList(reservations, byReservation, i)
    {
      var balance := BalanceLine(reservations[i], byReservation);
      updated := updated + [balance];
      assert updated == BalanceList(reservations, byReservation, i + 1);
      i := i + 1;
    }
    forall j | 0 <= j < |reservations| ensures updated[j] == BalanceOf(reservations[j], byReservation) {
      BalanceListAt(reservations, byReservation, |reservations|, j);
    }
  }

  // ---------------------------------------------------------------------------
  // generate_invoice: the grand totals

  /** The totals `generate_invoice` puts in the PDF context. */
  datatype InvoiceTotals = InvoiceTotals(
    totalReservationSar: string,
    totalRemainingSar: string,
    totalPaidSar: string,
    remaining: string,
    remainingInt: int)

  /**
   * The grand totals: the remaining amount is the reservations' total less the
   * payments' total, shown thousand-separated; each text reads back as its integer.
   */
  function Totals(totalReservationSar: int, totalPaidSar: int): (t: InvoiceTotals)
    ensures t.remainingInt + totalPaidSar == totalReservationSar
    ensures t.remaining == t.totalRemainingSar
  {
    var totalRemainingSar := totalReservationSar - totalPaidSar;
    InvoiceTotals(FormatThousands(totalReservationSar), FormatThousands(totalRemainingSar),
                  FormatThousands(totalPaidSar), FormatThousands(totalReservationSar - totalPaidSar),
                  totalReservationSar - totalPaidSar)
  }

  /** Each text of the totals reads back, commas removed, as the integer it shows. */
  lemma TotalsReadBack(totalReservationSar: int, totalPaidSar: int)
    ensures var t := Totals(totalReservationSar, totalPaidSar);
      && RemoveCommas(t.totalReservationSar) == IntString(totalReservationSar)
      && RemoveCommas(t.totalPaidSar) == IntString(totalPaidSar)
      && RemoveCommas(t.totalRemainingSar) == IntString(totalReservationSar - totalPaidSar)
  {
  }

  /** The form lists `generate_invoice` reads, already split out of the request. */
  datatype InvoiceForm = InvoiceForm(reservations: ReservationForm, payments: PaymentForm)

  /** What `generate_invoice` hands to the PDF template, apart from the header fields. */
  datatype Invoice = Invoice(reservations: seq<ReservationBalance>, payments: seq<Payment>, totals: InvoiceTotals)

  /**
   * The aggregation of `generate_invoice`: process the reservations, then the
   * payments, then the balances, and total it all. A ValueError is passed on,
   * the reservations' before the payments'.
   */
  method GenerateInvoice(form: InvoiceForm) returns (r: Result<Invoice>)
    ensures r.Ok? ==>
      var rl, pl := form.reservations.Lines(), form.payments.Lines();
      && TotalsReadable(rl, |rl|) && PaymentsReadable(pl, |pl|)
      && var rs, m := ReservationList(rl, |rl|), PaidByReservation(pl, |pl|);
      && |r.value.reservations| == |rs|
      && (forall i :: 0 <= i < |rs| ==> r.value.reservations[i] == BalanceOf(rs[i], m))
      && r.value.payments == PaymentList(pl, |pl|)
      && r.value.totals == Totals(SumTotals(rs), PaidTotal(pl, |pl|))
    ensures r.ValueError? ==>
      var rl, pl := form.reservations.Lines(), form.payments.Lines();
      FirstUnreadableTotal(rl, r.line) || (TotalsReadable(rl, |rl|) && FirstUnreadablePayment(pl, r.line))
  {
    var reservations := ProcessReservations(form.reservations);
    if reservations.ValueError? {
      return ValueError(reservations.line);
    }
    var payments := ProcessPayments(form.payments);
    if payments.ValueError? {
      return ValueError(payments.line);
    }
    var balances := CalculateRemainingPerReservation(reservations.value.reservations, payments.value.byReservation);
    var totals := Totals(reservations.value.totalReservationSar, payments.value.totalPaidSar);
    return Ok(Invoice(balances, payments.value.payments, totals));
  }

  // ---------------------------------------------------------------------------
  // The grand remaining and the per-reservation remainders

  /** The sum of the per-reservation remainders. */
  function SumRemaining(rs: seq<Reservation>, byReservation: map<string, int>): int
  {
    if rs == [] then 0 else SumRemaining(rs[..|rs| - 1], byReservation) + RemainingFor(rs[|rs| - 1], byReservation)
  }

  /** The payments the reservations find under their numbers, summed. */
  function SumPaidFound(rs: seq<Reservation>, byReservation: map<string, int>): int
  {
    if rs == [] then 0 else SumPaidFound(rs[..|rs| - 1], byReservation) + PaidFor(byReservation, rs[|rs| - 1].number)
  }

  /** How many of the reservations carry number `k`. */
  function Occurrences(rs: seq<Reservation>, k: string): nat
  {
    if rs == [] then 0 else Occurrences(rs[..|rs| - 1], k) + (if rs[|rs| - 1].number == k then 1 else 0)
  }

  /** The per-reservation remainders add up to the totals less what the reservations find paid. */
  lemma {:induction false} SumRemainingSplit(rs: seq<Reservation>, byReservation: map<string, int>)
    ensures SumRemaining(rs, byReservation) == SumTotals(rs) - SumPaidFound(rs, byReservation)
  {
    if rs != [] {
      SumRemainingSplit(rs[..|rs| - 1], byReservation);
    }
  }

  /** Adding `a` to bucket `k` adds `a` to what the reservations find, once for every reservation carrying `k`. */
  lemma {:induction false} SumPaidFoundAdd(rs: seq<Reservation>, m: map<string, int>, k: string, a: int)
    ensures SumPaidFound(rs, AddTo(m, k, a)) == SumPaidFound(rs, m) + Occurrences(rs, k) * a
  {
    if rs != [] {
      var init := rs[..|rs| - 1];
      SumPaidFoundAdd(init, m, k, a);
      var o := Occurrences(init, k);
      assert (o + 1) * a == o * a + a;
    }
  }

  /** With no payments recorded the reservations find nothing. */
  lemma {:induction false} SumPaidFoundNone(rs: seq<Reservation>)
    ensures SumPaidFound(rs, map[]) == 0
  {
    if rs != [] {
      SumPaidFoundNone(rs[..|rs| - 1]);
    }
  }

  /** The SAR amounts of the first `n` payment lines, each counted once for every reservation carrying its number. */
  function PaidAsFound(rs: seq<Reservation>, ls: seq<PaymentInput>, n: nat): int
    requires n <= |ls| && PaymentsReadable(ls, n)
  {
    if n == 0 then 0 else PaidAsFound(rs, ls, n - 1) + Occurrences(rs, PaymentKey(ls[n - 1])) * SarAmount(ls[n - 1])
  }

  /** What the reservations find in `payments_by_reservation` is every payment times the reservations carrying its number. */
  lemma {:induction false} SumPaidFoundPayments(rs: seq<Reservation>, ls: seq<PaymentInput>, n: nat)
    requires n <= |ls| && PaymentsReadable(ls, n)
    ensures SumPaidFound(rs, PaidByReservation(ls, n)) == PaidAsFound(rs, ls, n)
  {
    if n > 0 {
      SumPaidFoundPayments(rs, ls, n - 1);
      SumPaidFoundAdd(rs, PaidByReservation(ls, n - 1), PaymentKey(ls[n - 1]), SarAmount(ls[n - 1]));
    } else {
      SumPaidFoundNone(rs);
    }
  }

  /** Every payment line's number is carried by exactly one reservation. */
  predicate EachPaymentMatchedOnce(rs: seq<Reservation>, ls: seq<PaymentInput>)
  {
    forall j :: 0 <= j < |ls| ==> Occurrences(rs, PaymentKey(ls[j])) == 1
  }

  /** When every payment is matched by exactly one reservation, the reservations find `total_paid_sar` exactly. */
  lemma {:induction false} PaidAsFoundMatched(rs: seq<Reservation>, ls: seq<PaymentInput>, n: nat)
    requires n <= |ls| && PaymentsReadable(ls, n) && EachPaymentMatchedOnce(rs, ls)
    ensures PaidAsFound(rs, ls, n) == PaidTotal(ls, n)
  {
    if n > 0 {
      PaidAsFoundMatched(rs, ls, n - 1);
      assert Occurrences(rs, PaymentKey(ls[n - 1])) == 1;
    }
  }

  /**
   * The grand remaining against the per-reservation remainders: they differ by
   * every payment counted once less than the reservations carrying its number.
   */
  lemma InvoiceRemainingVersusLines(rs: seq<Reservation>, pl: seq<PaymentInput>)
    requires PaymentsReadable(pl, |pl|)
    ensures Totals(SumTotals(rs), PaidTotal(pl, |pl|)).remainingInt
      == SumRemaining(rs, PaidByReservation(pl, |pl|)) + PaidAsFound(rs, pl, |pl|) - PaidTotal(pl, |pl|)
  {
    SumRemainingSplit(rs, PaidByReservation(pl, |pl|));
    SumPaidFoundPayments(rs, pl, |pl|);
  }

  /**
   * When every payment is booked under the number of exactly one reservation,
   * the invoice's grand remaining equals the sum of the per-reservation remainders.
   */
  lemma InvoiceRemainingMatchesLines(rs: seq<Reservation>, pl: seq<PaymentInput>)
    requires PaymentsReadable(pl, |pl|) && EachPaymentMatchedOnce(rs, pl)
    ensures Totals(SumTotals(rs), PaidTotal(pl, |pl|)).remainingInt == SumRemaining(rs, PaidByReservation(pl, |pl|))
  {
    InvoiceRemainingVersusLines(rs, pl);
    PaidAsFoundMatched(rs, pl, |pl|);
  }

  /**
   * A payment booked under a number no reservation carries lowers the grand
   * remaining but no reservation's remainder: with one reservation and a
   * payment under another number, the totals show the payment taken off while
   * the reservation still owes its whole total, and a positive total stays "unpaid".
   */
  lemma OrphanPaymentExample(r: Reservation, key: string, paid: int)
    requires key != r.number && paid != 0
    ensures var rs, m := [r], map[key := paid];
      && Totals(SumTotals(rs), paid).remainingInt == r.totalInt - paid
      && SumRemaining(rs, m) == r.totalInt
      && Totals(SumTotals(rs), paid).remainingInt != SumRemaining(rs, m)
      && (r.totalInt > 0 ==> StatusOf(RemainingFor(r, m), r.totalInt) == RemainingUnpaid)
  {
    assert [r][..0] == [];
  }

  /**
   * Two reservations carrying the same number both count the payments booked
   * under it: the totals take the payment off once, the two remainders twice.
   */
  lemma DuplicateNumberExample(r: Reservation, paid: int)
    requires paid != 0
    ensures var rs, m := [r, r], map[r.number := paid];
      && Totals(SumTotals(rs), paid).remainingInt == 2 * r.totalInt - paid
      && SumRemaining(rs, m) == 2 * r.totalInt - 2 * paid
      && Totals(SumTotals(rs), paid).remainingInt != SumRemaining(rs, m)
  {
    var rs, m := [r, r], map[r.number := paid];
    assert rs[..1] == [r];
    assert [r][..0] == [];
    assert SumTotals([r]) == r.totalInt;
    assert RemainingFor(r, m) == r.totalInt - paid;
    assert SumRemaining([r], m) == r.totalInt - paid;
  }
}
