/**
 * The assistant chat beside the recommendations: an append-only message list
 * that starts with one bot greeting, an input field, a "typing" flag and the
 * quick-reply chips.  Selecting a job posts a user line and a bot follow-up;
 * sending posts the input and, 1.2 seconds later, a canned bot reply.
 *
 * `Date.now()` values (used as message ids) and the timer are inputs, one
 * timestamp per `Date.now()` call: the delayed reply is a separate method the
 * caller runs once per scheduled timer.
 */
module Chat {
  import opened Wrappers
  import opened JsText
  import opened Json

  datatype Sender = UserSide | BotSide

  datatype Message = Message(id: int, sender: Sender, text: string)

  const GreetingText := "Hi there! I can help you find the perfect job. Ask me anything about the recommendations or how to improve your chances!"
  const FollowUpText := "Would you like to know why this is a good fit, or get suggestions to improve your application?"
  const ReplyText := "Response from backend (implement real connection here)."

  const Greeting := Message(1, BotSide, GreetingText)

  /** An untyped recommended-job record. */
  type WSJob = map<string, JsonValue>

  /** `job[key] || ""`: the field when it is present and truthy, otherwise the empty string. */
  function TextOrEmpty(job: WSJob, key: string): (t: JsonValue)
    ensures TruthyOpt(Lookup(job, key)) ==> t == job[key]
    ensures !TruthyOpt(Lookup(job, key)) ==> t == JString("")
    ensures Truthy(t) || t == JString("")
  {
    Or(Lookup(job, key), JString(""))
  }

  /** `job["Key Requirements"] || job["Bonus Skills"] || []`. */
  function MatchReasons(job: WSJob): (r: JsonValue)
    ensures TruthyOpt(Lookup(job, "Key Requirements")) ==> r == job["Key Requirements"]
    ensures !TruthyOpt(Lookup(job, "Key Requirements")) && TruthyOpt(Lookup(job, "Bonus Skills")) ==>
      r == job["Bonus Skills"]
    ensures !TruthyOpt(Lookup(job, "Key Requirements")) && !TruthyOpt(Lookup(job, "Bonus Skills")) ==>
      r == JArray([])
    ensures Truthy(r)
  {
    Or(Lookup(job, "Key Requirements"), Or(Lookup(job, "Bonus Skills"), JArray([])))
  }

  /**
   * The user line posted when a job is selected: the title (`getJobTitle`)
   * in quotes, then ` at ` and the company (`getJobCompany`), each as
   * `String()` prints it.
   */
  function SelectionText(job: WSJob): (line: string)
    ensures var title := ToJsString(TextOrEmpty(job, "Job Title"));
      var company := ToJsString(TextOrEmpty(job, "Company Name"));
      && |line| == 20 + |title| + |company|
      && line[..15] == "Selected job: \""
      && line[15..15 + |title|] == title
      && line[15 + |title|..20 + |title|] == "\" at "
      && line[20 + |title|..] == company
  {
    "Selected job: \"" + ToJsString(TextOrEmpty(job, "Job Title")) + "\" at " + ToJsString(TextOrEmpty(job, "Company Name"))
  }

  /** A job with string title and company is announced by exactly those strings. */
  lemma SelectionTextOfStrings(job: WSJob, title: string, company: string)
    requires "Job Title" in job && job["Job Title"] == JString(title) && title != ""
    requires "Company Name" in job && job["Company Name"] == JString(company) && company != ""
    ensures SelectionText(job) == "Selected job: \"" + title + "\" at " + company
  {
  }

  /** A job without either field is announced with empty quotes and no company. */
  lemma SelectionTextOfBareJob(job: WSJob)
    requires "Job Title" !in job && "Company Name" !in job
    ensures SelectionText(job) == "Selected job: \"\" at "
  {
  }

  /** The widget's state. */
  class ChatWidget {
    var messages: seq<Message>
    var inputValue: string
    var isTyping: bool
    var showQuickReplies: bool
    /** Delayed replies scheduled by a send and not yet delivered. */
    var pendingReplies: nat

    /** The greeting always stays first. */
    ghost predicate Valid()
      reads this
    {
      |messages| >= 1 && messages[0] == Greeting
    }

    constructor ()
      ensures Valid()
      ensures messages == [Greeting]
      ensures inputValue == "" && !isTyping && !showQuickReplies && pendingReplies == 0
    {
      messages := [Greeting];
      inputValue, isTyping, showQuickReplies, pendingReplies := "", false, false, 0;
    }

    /** The input's `onChange`. */
    method SetInput(value: string)
      requires Valid()
      modifies this
      ensures Valid()
      ensures inputValue == value
      ensures messages == old(messages) && isTyping == old(isTyping)
      ensures showQuickReplies == old(showQuickReplies) && pendingReplies == old(pendingReplies)
    {
      inputValue := value;
    }

    /**
     * `handleJobSelected`: appends the user's selection line and the bot's
     * follow-up, and shows the quick replies.  `userNow` and `botNow` are the
     * two `Date.now()` reads; the follow-up's id is the second plus one.
     */
    method HandleJobSelected(job: WSJob, userNow: int, botNow: int)
      requires Valid()
      modifies this
      ensures Valid()
      ensures messages == old(messages) + [Message(userNow, UserSide, SelectionText(job)), Message(botNow + 1, BotSide, FollowUpText)]
      ensures showQuickReplies
      ensures inputValue == old(inputValue) && isTyping == old(isTyping) && pendingReplies == old(pendingReplies)
    {
      messages := messages + [Message(userNow, UserSide, SelectionText(job)), Message(botNow + 1, BotSide, FollowUpText)];
      showQuickReplies := true;
    }

    /** The `selectedJob` effect: only a present job is announced. */
    method SelectedJobChanged(selected: Option<WSJob>, userNow: int, botNow: int)
      requires Valid()
      modifies this
      ensures Valid()
      ensures selected.None? ==> messages == old(messages) && showQuickReplies == old(showQuickReplies)
      ensures selected.Some? ==>
        && messages == old(messages) + [Message(userNow, UserSide, SelectionText(selected.value)), Message(botNow + 1, BotSide, FollowUpText)]
        && showQuickReplies
      ensures inputValue == old(inputValue) && isTyping == old(isTyping) && pendingReplies == old(pendingReplies)
    {
      if selected.Some? {
        HandleJobSelected(selected.value, userNow, botNow);
      }
    }

    /** `handleQuickReply`: the chip's text goes into the input and the chips disappear. */
    method HandleQuickReply(text: string)
      requires Valid()
      modifies this
      ensures Valid()
      ensures inputValue == text && !showQuickReplies
      ensures messages == old(messages) && isTyping == old(isTyping) && pendingReplies == old(pendingReplies)
    {
      inputValue := text;
      showQuickReplies := false;
    }

    /**
     * `handleSendMessage`: blank input (only whitespace) changes nothing;
     * otherwise the untrimmed input is posted as a user message, the input is
     * cleared, typing shows and one delayed reply is scheduled.
     */
    method HandleSendMessage(now: int) returns (sent: bool)
      requires Valid()
      modifies this
      ensures Valid()
      ensures sent <==> !IsBlank(old(inputValue))
      ensures !sent ==> messages == old(messages) && inputValue == old(inputValue)
                        && isTyping == old(isTyping) && pendingReplies == old(pendingReplies)
      ensures sent ==> messages == old(messages) + [Message(now, UserSide, old(inputValue))]
                       && inputValue == "" && isTyping && pendingReplies == old(pendingReplies) + 1
      ensures showQuickReplies == old(showQuickReplies)
    {
      if IsBlank(inputValue) {
        return false;
      }
      messages := messages + [Message(now, UserSide, inputValue)];
      inputValue := "";
      isTyping := true;
      pendingReplies := pendingReplies + 1;
      sent := true;
    }

    /** A scheduled reply timer firing: one bot message is appended and typing stops. */
    method DeliverReply(now: int)
      requires Valid() && pendingReplies > 0
      modifies this
      ensures Valid()
      ensures messages == old(messages) + [Message(now, BotSide, ReplyText)]
      ensures !isTyping && pendingReplies == old(pendingReplies) - 1
      ensures inputValue == old(inputValue) && showQuickReplies == old(showQuickReplies)
    {
      messages := messages + [Message(now, BotSide, ReplyText)];
      isTyping := false;
      pendingReplies := pendingReplies - 1;
    }
  }
}
