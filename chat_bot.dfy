/** The assistant of src/components/BoltChatBot.tsx: the context sent with a
    question, the high-usage alert, the input guard and the classification
    of the service's answers. The request itself and the clock are
    parameters. */
module ChatBot {
  import opened Types
  import opened Text
  import opened Grouping
  import Storage

  /** The optional `prediction` property: a usage level with this month's
      bill and the possible savings. */
  datatype Prediction = Prediction(usageLevel: Option<string>, currentMonth: Option<real>, potentialSavings: Option<real>)

  // ---------------------------------------------------------------------
  // The context sent with a question (prepareContextData)

  datatype ApplianceSummary = ApplianceSummary(name: string, monthlyCost: real, monthlyKwh: real, percentage: real)

  datatype CurrentBill = CurrentBill(
    monthlyBill: real,
    yearlyBill: real,
    totalKwh: real,
    dailyAverage: real,
    topAppliances: seq<ApplianceSummary>)

  datatype HistoryEntry = HistoryEntry(
    name: string,
    month: string,
    year: int,
    monthlyBill: real,
    totalKwh: real,
    topAppliance: string)

  datatype Context = Context(
    userName: string,
    currentBill: Option<CurrentBill>,
    billHistory: seq<HistoryEntry>,
    totalBills: nat,
    averageMonthlyBill: real,
    prediction: Option<Prediction>)

  function Summary(u: ApplianceUsage): ApplianceSummary {
    ApplianceSummary(u.appliance.name, u.monthlyCost, u.monthlyKwh, u.percentage)
  }

  /** The first three entries of the breakdown (`slice(0, 3)`), summarised. */
  function TopThree(breakdown: seq<ApplianceUsage>): (r: seq<ApplianceSummary>)
    ensures |r| == if |breakdown| < 3 then |breakdown| else 3
    ensures forall i :: 0 <= i < |r| ==> r[i] == Summary(breakdown[i])
  {
    var n := if |breakdown| < 3 then |breakdown| else 3;
    seq(n, i requires 0 <= i < n => Summary(breakdown[i]))
  }

  /** `applianceBreakdown[0]?.appliance.name || "Unknown"`: an empty
      breakdown, and an empty first name, give "Unknown". */
  function TopApplianceName(breakdown: seq<ApplianceUsage>): string {
    if breakdown == [] || breakdown[0].appliance.name == "" then "Unknown" else breakdown[0].appliance.name
  }

  function Entry(b: SavedBill): HistoryEntry {
    HistoryEntry(b.name, b.month, b.year, b.calculation.monthlyBill, b.calculation.totalKwh,
                 TopApplianceName(b.calculation.applianceBreakdown))
  }

  function History(bills: seq<SavedBill>): (r: seq<HistoryEntry>)
    ensures |r| == |bills|
    ensures forall i :: 0 <= i < |bills| ==> r[i] == Entry(bills[i])
  {
    seq(|bills|, i requires 0 <= i < |bills| => Entry(bills[i]))
  }

  /** prepareContextData, with the component's defaults already applied to
      its properties (`savedBills = []`, `userName = "User"`). */
  function PrepareContext(userName: string, currentBillData: Option<BillCalculation>,
                          savedBills: seq<SavedBill>, prediction: Option<Prediction>): Context
  {
    Context(
      userName,
      if currentBillData.None? then None
      else
        var d := currentBillData.value;
        Some(CurrentBill(d.monthlyBill, d.yearlyBill, d.totalKwh, d.dailyAverage, TopThree(d.applianceBreakdown))),
      History(savedBills),
      |savedBills|,
      if |savedBills| > 0 then Total(savedBills, BillMonthly) / |savedBills| as real else 0.0,
      prediction)
  }

  /** `userName = "User"`: the default applies only to a missing property. */
  function UserNameOr(userName: Option<string>): string {
    if userName.None? then "User" else userName.value
  }

  /** What the context reports: no current bill exactly without a
      calculation, otherwise its four totals and at most three appliances;
      one history entry per saved bill; the number of bills; and their mean
      monthly bill, 0 without bills. */
  lemma PrepareContextSpec(userName: string, currentBillData: Option<BillCalculation>,
                           savedBills: seq<SavedBill>, prediction: Option<Prediction>)
    ensures PrepareContext(userName, currentBillData, savedBills, prediction).currentBill.None? <==> currentBillData.None?
    ensures currentBillData.Some? ==>
              var c := PrepareContext(userName, currentBillData, savedBills, prediction).currentBill.value;
              && c.monthlyBill == currentBillData.value.monthlyBill
              && c.yearlyBill == currentBillData.value.yearlyBill
              && c.totalKwh == currentBillData.value.totalKwh
              && c.dailyAverage == currentBillData.value.dailyAverage
              && |c.topAppliances| <= 3
              && |c.topAppliances| <= |currentBillData.value.applianceBreakdown|
              && (|currentBillData.value.applianceBreakdown| >= 3 ==> |c.topAppliances| == 3)
    ensures |PrepareContext(userName, currentBillData, savedBills, prediction).billHistory| == |savedBills|
    ensures PrepareContext(userName, currentBillData, savedBills, prediction).totalBills == |savedBills|
    ensures savedBills == [] ==> PrepareContext(userName, currentBillData, savedBills, prediction).averageMonthlyBill == 0.0
    ensures savedBills != [] ==>
              PrepareContext(userName, currentBillData, savedBills, prediction).averageMonthlyBill == Mean(savedBills, BillMonthly)
  {
  }

  /** The average sent to the assistant is the one getBillStatistics reports. */
  lemma ContextAverageIsStatistics(userName: string, currentBillData: Option<BillCalculation>,
                                   savedBills: seq<SavedBill>, prediction: Option<Prediction>)
    ensures PrepareContext(userName, currentBillData, savedBills, prediction).averageMonthlyBill
         == Storage.Statistics(savedBills).averageMonthly
    ensures PrepareContext(userName, currentBillData, savedBills, prediction).totalBills
         == Storage.Statistics(savedBills).totalBills
  {
  }

  /** A history entry names the bill's first appliance, or "Unknown" exactly
      when there is none with a name. */
  lemma HistoryEntrySpec(b: SavedBill)
    ensures Entry(b).topAppliance == "Unknown" <==>
              b.calculation.applianceBreakdown == [] || b.calculation.applianceBreakdown[0].appliance.name in ["", "Unknown"]
    ensures Entry(b).topAppliance != "" 
    ensures Entry(b).monthlyBill == BillMonthly(b) && Entry(b).totalKwh == BillKwh(b)
  {
  }

  // ---------------------------------------------------------------------
  // Messages

  datatype Sender = BotSender | UserSender

  datatype ChatMessage = ChatMessage(id: string, text: string, sender: Sender, timestamp: int)

  const Welcome: string := "Hi! I'm your energy assistant. Ask me anything about saving power or understanding your bill."

  /** The number of hundredths `toFixed(2)` prints for a non-negative number:
      the nearest, the larger on a tie. */
  function Cents(x: real): (c: nat)
    requires x >= 0.0
    ensures c as real - 0.5 <= x * 100.0 < c as real + 0.5
  {
    (x * 100.0 + 0.5).Floor
  }

  /** `x.toFixed(2)`: a minus sign for a negative number, then the rounded
      magnitude with two decimals. */
  function Fixed2(x: real): (s: string)
    ensures x >= 0.0 ==> s == FixedMagnitude(x)
    ensures x < 0.0 ==> s == "-" + FixedMagnitude(-x)
  {
    if x < 0.0 then "-" + FixedMagnitude(-x) else FixedMagnitude(x)
  }

  function FixedMagnitude(x: real): (s: string)
    requires x >= 0.0
    ensures |s| >= 4 && s[|s| - 3] == '.'
  {
    var c := Cents(x);
    NatToString(c / 100) + "." + [DigitChar(c % 100 / 10), DigitChar(c % 10)]
  }

  /** The value of a decimal digit. */
  function DigitValue(d: char): int {
    d as int - '0' as int
  }

  /** `m` is a decimal text with two decimals that reads as `c` hundredths:
      the whole part's value times 100 plus the two decimals is `c`. */
  predicate ShowsHundredths(m: string, c: nat) {
    |m| >= 4 && m[|m| - 3] == '.' && IsDigits(m[..|m| - 3])
    && '0' <= m[|m| - 2] <= '9' && '0' <= m[|m| - 1] <= '9'
    && 100 * DigitsValue(m[..|m| - 3]) + 10 * DigitValue(m[|m| - 2]) + DigitValue(m[|m| - 1]) == c
  }

  /** A digit string, a point and two digits show the hundredths they spell. */
  lemma PointedShowsHundredths(whole: string, d1: nat, d2: nat)
    requires |whole| >= 1 && IsDigits(whole)
    requires d1 < 10 && d2 < 10
    ensures ShowsHundredths(whole + "." + [DigitChar(d1), DigitChar(d2)], 100 * DigitsValue(whole) + 10 * d1 + d2)
  {
    var m := whole + "." + [DigitChar(d1), DigitChar(d2)];
    assert m[..|m| - 3] == whole;
    assert m[|m| - 3] == '.' && m[|m| - 2] == DigitChar(d1) && m[|m| - 1] == DigitChar(d2);
  }

  /** The text printed for `c` hundredths reads back as `c`, with no leading
      zero before a non-zero whole part. */
  lemma HundredthsText(c: nat)
    ensures ShowsHundredths(NatToString(c / 100) + "." + [DigitChar(c % 100 / 10), DigitChar(c % 10)], c)
    ensures '0' <= NatToString(c / 100)[0] <= '9'
    ensures c >= 1000 ==> NatToString(c / 100)[0] != '0'
  {
    var w := NatToString(c / 100);
    assert 100 * (c / 100) + 10 * (c % 100 / 10) + c % 10 == c;
    DigitsRoundTrip(c / 100);
    PointedShowsHundredths(w, c % 100 / 10, c % 10);
  }

  /** The magnitude is printed as its rounded number of hundredths, with no
      leading zero before a non-zero whole part. */
  lemma FixedMagnitudeSpec(x: real)
    requires x >= 0.0
    ensures ShowsHundredths(FixedMagnitude(x), Cents(x))
    ensures '0' <= FixedMagnitude(x)[0] <= '9'
    ensures Cents(x) >= 1000 ==> FixedMagnitude(x)[0] != '0'
  {
    HundredthsText(Cents(x));
  }

  lemma MinusThen(m: string)
    ensures ("-" + m)[0] == '-' && ("-" + m)[1..] == m
  {
  }

  /** `toFixed(2)` prints a minus sign exactly for a negative number, and then
      the magnitude rounded to hundredths (a tie rounds away from zero). */
  lemma Fixed2Spec(x: real)
    ensures |Fixed2(x)| >= 4
    ensures Fixed2(x)[0] == '-' <==> x < 0.0
    ensures x >= 0.0 ==> ShowsHundredths(Fixed2(x), Cents(x))
    ensures x < 0.0 ==> ShowsHundredths(Fixed2(x)[1..], Cents(-x))
  {
    if x < 0.0 {
      FixedMagnitudeSpec(-x);
      assert Fixed2(x)[1..] == FixedMagnitude(-x) by {
        MinusThen(FixedMagnitude(-x));
      }
    } else {
      FixedMagnitudeSpec(x);
    }
  }

  /** `value || 0` for an optional number (a missing value and 0 both give 0). */
  function OrZero(x: Option<real>): real {
    if x.None? then 0.0 else x.value
  }

  /** The level at which the assistant warns. */
  predicate Alarming(prediction: Option<Prediction>) {
    prediction.Some? && prediction.value.usageLevel.Some?
    && (prediction.value.usageLevel.value == "high" || prediction.value.usageLevel.value == "critical")
  }

  /** The warning text for an alarming prediction: the level, then the bill
      and the savings (missing ones as 0) with two decimals. */
  function AlertText(p: Prediction): string
    requires p.usageLevel.Some?
  {
    AlertHead(p) + AlertTail(p)
  }

  const AlertPrefix: string := "⚠️ Your usage is "
  const BillLead: string := " with a bill of $"
  const SavingsLead: string := ". I can help reduce it by up to $"
  const TipsQuestion: string := ". Want tips?"

  function AlertHead(p: Prediction): string
    requires p.usageLevel.Some?
  {
    AlertPrefix + p.usageLevel.value
  }

  function AlertTail(p: Prediction): string {
    BillLead + Fixed2(OrZero(p.currentMonth)) + SavingsLead + Fixed2(OrZero(p.potentialSavings)) + TipsQuestion
  }

  /** The message the prediction effect appends, if any. */
  function AlertFor(prediction: Option<Prediction>, now: int): Option<ChatMessage> {
    if Alarming(prediction) then Some(ChatMessage(IntToString(now), AlertText(prediction.value), BotSender, now))
    else None
  }

  /** An alert appears exactly for "high" and "critical", comes from the bot
      and names the level. */
  lemma AlertForSpec(prediction: Option<Prediction>, now: int)
    ensures AlertFor(prediction, now).Some? <==> Alarming(prediction)
    ensures AlertFor(prediction, now).Some? ==>
              AlertFor(prediction, now).value.sender == BotSender
              && StartsWith(AlertFor(prediction, now).value.text, AlertHead(prediction.value))
  {
    if Alarming(prediction) {
      StartsWithConcat(AlertHead(prediction.value), AlertTail(prediction.value));
    }
  }

  // ---------------------------------------------------------------------
  // Answers of the service

  /** The parsed body of a response: `reply` and `error`, when present. */
  datatype ResponseData = ResponseData(reply: Option<string>, error: Option<string>)

  /** What `fetch` and `response.json()` can throw: an Error with its
      message, or some other value. */
  datatype Exception = ErrorWithMessage(message: string) | NonError

  /** How the request ended: a response with its status and body, or an
      exception before one was read. */
  datatype Outcome = Response(status: int, data: ResponseData) | Thrown(exception: Exception)

  predicate Truthy(s: Option<string>) { s.Some? && s.value != "" }

  const UnexpectedFormat: string := "⚠️ Received unexpected response format from server."
  const CannotConnect: string := "⚠️ Cannot connect to server. Make sure the backend is running on http://localhost:5000"
  const FailedToConnect: string := "⚠️ Failed to connect to AI assistant."
  const ErrorPrefix: string := "⚠️ Error: "
  const ServerErrorPrefix: string := "⚠️ Server error: "
  const HttpErrorPrefix: string := "HTTP error! status: "
  const FetchFailure: string := "Failed to fetch"
  const HttpErrorMark: string := "HTTP error"

  /** The bot's text for a successful response: the reply, else the error,
      else the fixed unexpected-format text. */
  function ReplyText(data: ResponseData): string {
    if Truthy(data.reply) then data.reply.value
    else if Truthy(data.error) then ErrorPrefix + data.error.value
    else UnexpectedFormat
  }

  /** The catch block's text for what was thrown. */
  function ErrorText(e: Exception): string {
    match e
    case NonError => FailedToConnect
    case ErrorWithMessage(m) =>
      if Contains(m, FetchFailure) then CannotConnect
      else if Contains(m, HttpErrorMark) then ServerErrorPrefix + m
      else ErrorPrefix + m
  }

  /** The message of the Error thrown for a status outside 200-299. */
  function HttpErrorMessage(status: int): string {
    HttpErrorPrefix + IntToString(status)
  }

  /** The text of the one bot message that follows a question. */
  function BotText(outcome: Outcome): string {
    match outcome
    case Response(status, data) =>
      if 200 <= status <= 299 then ReplyText(data) else ErrorText(ErrorWithMessage(HttpErrorMessage(status)))
    case Thrown(e) => ErrorText(e)
  }

  /** A reply wins over an error; an error is shown after the warning prefix;
      without either the fixed text is shown. */
  lemma ReplyTextSpec(data: ResponseData)
    ensures Truthy(data.reply) ==> ReplyText(data) == data.reply.value
    ensures !Truthy(data.reply) && Truthy(data.error) ==> ReplyText(data) == ErrorPrefix + data.error.value
    ensures !Truthy(data.reply) && !Truthy(data.error) ==> ReplyText(data) == UnexpectedFormat
  {
  }

  /** A status outside 200-299 is always reported as a server error that
      carries the status. */
  lemma HttpFailureIsServerError(status: int, data: ResponseData)
    requires !(200 <= status <= 299)
    ensures BotText(Response(status, data)) == ServerErrorPrefix + HttpErrorMessage(status)
  {
    var m := HttpErrorMessage(status);
    assert !Contains(m, FetchFailure) by {
      assert Lacks(HttpErrorPrefix, 'F');
      IntToStringChars(status, 'F');
      LacksConcat(HttpErrorPrefix, IntToString(status), 'F');
      NotContainsWithoutFirst(m, FetchFailure);
    }
    assert Contains(m, HttpErrorMark) by {
      ContainsAt(m, HttpErrorMark, 0);
    }
  }

  /** The catch block tells a connection failure from a server error and from
      anything else. */
  lemma ErrorTextSpec(m: string)
    ensures Contains(m, FetchFailure) ==> ErrorText(ErrorWithMessage(m)) == CannotConnect
    ensures !Contains(m, FetchFailure) && Contains(m, HttpErrorMark) ==>
              ErrorText(ErrorWithMessage(m)) == ServerErrorPrefix + m
    ensures !Contains(m, FetchFailure) && !Contains(m, HttpErrorMark) ==>
              ErrorText(ErrorWithMessage(m)) == ErrorPrefix + m
    ensures ErrorText(NonError) == FailedToConnect
  {
  }

  // ---------------------------------------------------------------------
  // The component's state

  /** The chat window's messages, input box and typing indicator. */
  class ChatView {
    var messages: seq<ChatMessage>
    var inputMessage: string
    var isTyping: bool

    /** One welcome message from the bot, an empty input. */
    constructor (now: int)
      ensures messages == [ChatMessage("1", Welcome, BotSender, now)]
      ensures inputMessage == "" && !isTyping
    {
      messages := [ChatMessage("1", Welcome, BotSender, now)];
      inputMessage := "";
      isTyping := false;
    }

    /** The text box changes. */
    method SetInput(text: string)
      modifies this
      ensures inputMessage == text && messages == old(messages) && isTyping == old(isTyping)
    {
      inputMessage := text;
    }

    /** The prediction effect: an alarming prediction appends one alert. */
    method ShowAlert(prediction: Option<Prediction>, now: int)
      modifies this
      ensures Alarming(prediction) ==> messages == old(messages) + [AlertFor(prediction, now).value]
      ensures !Alarming(prediction) ==> messages == old(messages)
      ensures inputMessage == old(inputMessage) && isTyping == old(isTyping)
    {
      var alert := AlertFor(prediction, now);
      if alert.Some? {
        messages := messages + [alert.value];
      }
    }

    /** The first half of handleSendMessage: whitespace-only input sends
        nothing and changes nothing; otherwise the input, untrimmed, is
        appended as the user's message and becomes the question, the box is
        cleared and the bot starts typing. */
    method SendMessage(now: int) returns (question: Option<string>)
      modifies this
      ensures Trim(old(inputMessage)) == "" ==>
                question.None? && messages == old(messages) && inputMessage == old(inputMessage) && isTyping == old(isTyping)
      ensures Trim(old(inputMessage)) != "" ==>
                question == Some(old(inputMessage))
                && messages == old(messages) + [ChatMessage(IntToString(now), old(inputMessage), UserSender, now)]
                && inputMessage == "" && isTyping
    {
      if Trim(inputMessage) == "" {
        return None;
      }
      messages := messages + [ChatMessage(IntToString(now), inputMessage, UserSender, now)];
      question := Some(inputMessage);
      inputMessage := "";
      isTyping := true;
    }

    /** The second half: whatever the outcome, exactly one bot message is
        appended and the bot stops typing. */
    method ReceiveOutcome(outcome: Outcome, now: int)
      modifies this
      ensures messages == old(messages) + [ChatMessage(IntToString(now + 1), BotText(outcome), BotSender, now)]
      ensures !isTyping && inputMessage == old(inputMessage)
    {
      messages := messages + [ChatMessage(IntToString(now + 1), BotText(outcome), BotSender, now)];
      isTyping := false;
    }
  }

  /** A question that is only whitespace is never sent. */
  lemma BlankInputIsNotSent(input: string)
    ensures Trim(input) == "" <==> IsBlank(input)
  {
    TrimEmptyIffBlank(input);
  }
}
