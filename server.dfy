/** The assistant's backend (server/index.js): `POST /api/chat` checks the
    message, asks Gemini when a key is configured, and otherwise (or when that
    call fails) answers from a fixed table of energy topics matched by keyword. */
module Server {
  import opened Types
  import opened Text
  import ChatBot

  /** The `message` field of the JSON body: a string or any other JSON value
      (number, boolean, null, object, array). */
  datatype JsValue = JsString(s: string) | JsOther

  /** What the Gemini call does, as seen by the handler: no key is configured,
      the request or the reading of its answer throws, or it answers with a
      text. */
  datatype Gemini = NoKey | GeminiFailed | GeminiAnswered(text: string)

  /** The handler's answer: the 400 body, or a reply with the model that
      produced it. */
  datatype ChatResult = BadRequest(error: string) | Answer(reply: string, model: string)

  const MessageRequired: string := "Message is required and must be a string"
  const GeminiModel: string := "gemini-1.5-flash"
  const FallbackModel: string := "fallback"

  /** `message` passes `!message || typeof message !== "string"` unrejected:
      it is a string, and not the falsy empty one. */
  predicate ValidMessage(message: Option<JsValue>) {
    message.Some? && message.value.JsString? && message.value.s != ""
  }

  /** The topics `getEnergyResponse` recognises, in the order they are tried;
      `General` is the answer when none is mentioned. */
  datatype Topic = Greeting | Saving | Billing | Appliances | PeakHours | Solar | General

  /** The position of a topic in the order of the checks. */
  function Rank(t: Topic): (r: nat)
    ensures r <= 6
    ensures r == 6 <==> t == General
  {
    match t
    case Greeting => 0
    case Saving => 1
    case Billing => 2
    case Appliances => 3
    case PeakHours => 4
    case Solar => 5
    case General => 6
  }

  /** The six keyword topics, in order. */
  const KeywordTopics: seq<Topic> := [Greeting, Saving, Billing, Appliances, PeakHours, Solar]

  /** The two keywords of each keyword topic. */
  function Keywords(t: Topic): (string, string)
    requires t != General
  {
    match t
    case Greeting => ("hello", "hi")
    case Saving => ("save", "reduce")
    case Billing => ("bill", "cost")
    case Appliances => ("appliance", "device")
    case PeakHours => ("peak", "time")
    case Solar => ("solar", "renewable")
  }

  /** The lowered message mentions topic `t`. */
  predicate Mentions(lower: string, t: Topic)
    requires t != General
  {
    Contains(lower, Keywords(t).0) || Contains(lower, Keywords(t).1)
  }

  /** The first topic in `KeywordTopics[k..]` that the lowered message
      mentions, or `General`. */
  function FirstMention(lower: string, k: nat): (t: Topic)
    requires k <= |KeywordTopics|
    ensures t == General || Mentions(lower, t)
    ensures k <= Rank(t)
    ensures forall j :: k <= j < Rank(t) ==> !Mentions(lower, KeywordTopics[j])
    decreases |KeywordTopics| - k
  {
    if k == |KeywordTopics| then General
    else if Mentions(lower, KeywordTopics[k]) then KeywordTopics[k]
    else FirstMention(lower, k + 1)
  }

  const GreetingReply: string := "Hello! I'm your energy assistant. How can I help you save on your electricity bill today?"
  const SavingReply: string := "Here are quick energy-saving tips: Use LED bulbs, unplug devices when not in use, set AC to 78Â°F, and run appliances during off-peak hours. These can reduce your bill by 15-25%."
  const BillingReply: string := "To lower your electricity bill, try: adjusting thermostat settings, using energy-efficient appliances, improving home insulation, and switching to time-of-use plans if available."
  const AppliancesReply: string := "Major energy consumers are: AC/heating (40-50%), water heater (15-20%), lighting (10-15%), and electronics (5-10%). Focus on these for maximum savings."
  const PeakHoursReply: string := "Peak hours are typically 4-9 PM weekdays. Avoid using heavy appliances during this time. Run dishwashers, washing machines, and dryers during off-peak hours to save money."
  const SolarReply: string := "Solar panels can reduce your bill by 70-90%. Consider factors like roof orientation, local incentives, and payback period. Many areas offer net metering for excess power."
  const GeneralReply: string := "I'm here to help you save energy and reduce costs! Ask me about lowering your bill, understanding usage, optimizing appliances, or renewable energy options."

  /** The fixed answer for each topic. */
  function Reply(t: Topic): string {
    match t
    case Greeting => GreetingReply
    case Saving => SavingReply
    case Billing => BillingReply
    case Appliances => AppliancesReply
    case PeakHours => PeakHoursReply
    case Solar => SolarReply
    case General => GeneralReply
  }

  /** The checks of `getEnergyResponse` on the lowered message, in order. */
  function Classify(lower: string): Topic {
    if Contains(lower, "hello") || Contains(lower, "hi") then Greeting
    else if Contains(lower, "save") || Contains(lower, "reduce") then Saving
    else if Contains(lower, "bill") || Contains(lower, "cost") then Billing
    else if Contains(lower, "appliance") || Contains(lower, "device") then Appliances
    else if Contains(lower, "peak") || Contains(lower, "time") then PeakHours
    else if Contains(lower, "solar") || Contains(lower, "renewable") then Solar
    else General
  }

  /** `getEnergyResponse`: the message is lowered once and answered with the
      reply of the topic it is classified under. */
  function EnergyResponse(message: string): string {
    Reply(Classify(ToLower(message)))
  }

  /** The checks pick the first topic mentioned: a message that mentions
      several topics is classified under the earliest, and one that mentions
      none under `General`. */
  lemma {:induction false} ClassifyIsFirstMention(lower: string)
    ensures Classify(lower) == FirstMention(lower, 0)
  {
    assert FirstMention(lower, 5) == (if Mentions(lower, Solar) then Solar else General);
    assert FirstMention(lower, 4) == (if Mentions(lower, PeakHours) then PeakHours else FirstMention(lower, 5));
    assert FirstMention(lower, 3) == (if Mentions(lower, Appliances) then Appliances else FirstMention(lower, 4));
    assert FirstMention(lower, 2) == (if Mentions(lower, Billing) then Billing else FirstMention(lower, 3));
    assert FirstMention(lower, 1) == (if Mentions(lower, Saving) then Saving else FirstMention(lower, 2));
    assert FirstMention(lower, 0) == (if Mentions(lower, Greeting) then Greeting else FirstMention(lower, 1));
  }

  /** The seven answers are pairwise different, so an answer tells which
      topic matched. */
  lemma RepliesDistinct(t: Topic, u: Topic)
    requires t != u
    ensures Reply(t) != Reply(u)
  {
  }

  /** `getEnergyResponse` answers with the reply of topic `t` exactly when
      `t` is the first topic the lowered message mentions (or `General` when
      it mentions none). */
  lemma EnergyResponseSpec(message: string, t: Topic)
    ensures EnergyResponse(message) == Reply(t) <==> FirstMention(ToLower(message), 0) == t
  {
    var c := Classify(ToLower(message));
    ClassifyIsFirstMention(ToLower(message));
    if c != t {
      RepliesDistinct(c, t);
    }
  }

  /** Matching ignores ASCII case: a message and its lowered form get the
      same answer. */
  lemma EnergyResponseIgnoresCase(message: string)
    ensures EnergyResponse(ToLower(message)) == EnergyResponse(message)
  {
    ToLowerIdempotent(message);
  }

  /** Keywords match anywhere, inside longer words too: "this" contains "hi"
      and is greeted. */
  lemma KeywordsMatchInsideWords()
    ensures EnergyResponse("Is this normal?") == GreetingReply
  {
    var lower := ToLower("Is this normal?");
    assert lower[4..6] == "hi";
    ContainsAt(lower, "hi", 4);
  }

  /** The `/api/chat` handler: a missing, empty or non-string message is
      refused; Gemini's trimmed text is the reply when it answers; otherwise
      the keyword table answers. */
  function HandleChat(message: Option<JsValue>, gemini: Gemini): ChatResult {
    if !ValidMessage(message) then BadRequest(MessageRequired)
    else match gemini
      case GeminiAnswered(text) => Answer(Trim(text), GeminiModel)
      case _ => Answer(EnergyResponse(message.value.s), FallbackModel)
  }

  /** The HTTP status of a result. */
  function Status(r: ChatResult): (status: int)
    ensures status == 400 <==> r.BadRequest?
    ensures r.Answer? ==> status == 200
  {
    if r.BadRequest? then 400 else 200
  }

  /** The refused messages are exactly the missing, non-string and empty
      ones; an accepted message is answered by Gemini only when it answered,
      and by the keyword table, labelled "fallback", without a key or after a
      failure. */
  lemma HandleChatSpec(message: Option<JsValue>, gemini: Gemini)
    ensures HandleChat(message, gemini).BadRequest? <==>
              message.None? || message.value.JsOther? || message.value.s == ""
    ensures HandleChat(message, gemini).BadRequest? ==> HandleChat(message, gemini).error == MessageRequired
    ensures ValidMessage(message) && gemini.GeminiAnswered? ==>
              HandleChat(message, gemini) == Answer(Trim(gemini.text), GeminiModel)
    ensures ValidMessage(message) && !gemini.GeminiAnswered? ==>
              HandleChat(message, gemini) == Answer(EnergyResponse(message.value.s), FallbackModel)
  {
  }

  /** The JSON body the handler sends: `{ error }` or `{ reply, model }`. */
  function Body(r: ChatResult): ChatBot.ResponseData {
    match r
    case BadRequest(e) => ChatBot.ResponseData(None, Some(e))
    case Answer(reply, _) => ChatBot.ResponseData(Some(reply), None)
  }

  /** What the assistant panel shows for a result: the bot text of a
      response with the result's status and body. */
  function Shown(r: ChatResult): string {
    ChatBot.BotText(ChatBot.Response(Status(r), Body(r)))
  }

  /** The panel reports a refusal as a server error with status 400, and an
      answer by its reply, or by the unexpected-format notice when the reply
      is empty. */
  lemma ShownSpec(r: ChatResult)
    ensures r.BadRequest? ==> Shown(r) == ChatBot.ServerErrorPrefix + ChatBot.HttpErrorMessage(400)
    ensures r.Answer? && r.reply == "" ==> Shown(r) == ChatBot.UnexpectedFormat
    ensures r.Answer? && r.reply != "" ==> Shown(r) == r.reply
  {
    if r.BadRequest? {
      ChatBot.HttpFailureIsServerError(400, Body(r));
    }
  }

  /** No fixed answer is empty. */
  lemma ReplyNonEmpty(t: Topic)
    ensures Reply(t) != ""
  {
  }

  /** What the assistant panel shows for the handler's answer: a refusal is
      reported as a server error with status 400, a keyword answer is shown
      as it is, and a Gemini text that trims to nothing falls through to the
      unexpected-format notice. */
  lemma ClientShowsAnswer(message: Option<JsValue>, gemini: Gemini)
    ensures HandleChat(message, gemini).BadRequest? ==>
              Shown(HandleChat(message, gemini)) == ChatBot.ServerErrorPrefix + ChatBot.HttpErrorMessage(400)
    ensures HandleChat(message, gemini).Answer? && HandleChat(message, gemini).model == FallbackModel ==>
              Shown(HandleChat(message, gemini)) == HandleChat(message, gemini).reply
    ensures ValidMessage(message) && gemini.GeminiAnswered? && Trim(gemini.text) == "" ==>
              Shown(HandleChat(message, gemini)) == ChatBot.UnexpectedFormat
  {
    ShownSpec(HandleChat(message, gemini));
    if ValidMessage(message) && !gemini.GeminiAnswered? {
      ReplyNonEmpty(Classify(ToLower(message.value.s)));
    }
  }
}
