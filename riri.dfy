/** The `DRChoirBot` class: its request tracker, the context and prompt it
    builds, and the order of the actions `handle_message` takes. The chat
    platform, the completion service and the conversations table are
    outside; their answers come in as parameters, and what the bot asks of
    them comes out as a list of effects. */
module Riri {
  import opened Text
  import opened RateWindow
  import opened Gate
  import opened Prompt

  datatype Option<T> = None | Some(value: T)

  /** The arguments of `chat.completions.create`. */
  datatype Request = Request(model: string, messages: seq<Entry>, maxTokens: nat, temperature: real)

  /** One row written by `save_conversation`. */
  datatype Turn = Turn(chatId: int, userId: int, username: string, message: string, response: string)

  /** What the handler asks of the outside world, in the order it asks. */
  datatype Effect =
    | Typing(chatId: int)      // send_chat_action(chat_id, "typing")
    | Complete(request: Request) // the completion call
    | Save(turn: Turn)         // save_conversation
    | Reply(text: string)      // message.reply_text

  const ModelName: string := "llama3-70b-8192"
  const MaxTokens: nat := 300
  const Temperature: real := 0.7

  /** What `generate_response` returns when anything in it fails. */
  const Apology: string := "Sorry, I'm having trouble responding right now. Please try again in a moment."

  /** The reply to a message refused by the rate limiter. */
  const RateLimitNotice: string := "\U{23F0} Chat rate limit reached. Please wait a moment before asking again."

  /** The completion request for `message` in a chat whose stored turns are
      `history`, newest first. */
  function RequestFor(systemPrompt: string, history: seq<Row>, message: string): (r: Request)
    ensures r.model == "llama3-70b-8192" && r.maxTokens == 300 && r.temperature == 0.7
    ensures r.messages == [Entry(System, systemPrompt)] + Expanded(history[..Min(|history|, RecentTurns)])
                          + [Entry(User, message)]
    ensures |r.messages| <= MaxMessages
  {
    AssembledIsRecentTurns(systemPrompt, history, message);
    Request(ModelName, Assemble(systemPrompt, Expanded(Fetched(history, ContextLimit)), message), MaxTokens, Temperature)
  }

  /** The text `generate_response` returns: the completion with surrounding
      whitespace stripped, or the apology when the call failed (`None`). */
  function ReplyText(completion: Option<string>): (r: string)
    ensures completion.None? ==> r == Apology
    ensures completion.Some? ==> r == Strip(completion.value)
    ensures completion.Some? ==>
      && Contains(completion.value, r)
      && (r == [] || (!IsSpace(r[0]) && !IsSpace(r[|r| - 1])))
      && Strip(r) == r
  {
    if completion.None? then Apology
    else
      var text := completion.value;
      StripOccurs(text);
      StripIdempotent(text);
      Strip(text)
  }

  /** `username or first_name`: an empty or missing handle falls back to the
      first name. */
  function DisplayName(handle: string, firstName: string): (name: string)
    ensures handle != "" ==> name == handle
    ensures handle == "" ==> name == firstName
  {
    if handle != "" then handle else firstName
  }

  class ChoirBot {
    const systemPrompt: string

    /** `request_tracker`: chat id to the instants of its accepted requests. */
    var requestTracker: Tracker

    constructor (systemPrompt: string)
      ensures this.systemPrompt == systemPrompt
      ensures requestTracker == map[]
      ensures WithinLimit(requestTracker)
    {
      this.systemPrompt := systemPrompt;
      requestTracker := map[];
    }

    /** `check_rate_limit`: the chat gets an entry if it had none, its list is
        pruned to the last hour, and `now` is recorded unless 100 instants
        remain. No other chat's list changes. */
    method CheckRateLimit(chatId: int, now: int) returns (allowed: bool)
      modifies this
      ensures allowed == Admit(old(requestTracker), chatId, now).allowed
      ensures requestTracker == Admit(old(requestTracker), chatId, now).tracker
      ensures old(WithinLimit(requestTracker)) ==> WithinLimit(requestTracker)
    {
      ghost var before := requestTracker;
      if WithinLimit(before) {
        AdmitKeepsWithinLimit(before, chatId, now);
      }
      var hourAgo := now - Window;
      if chatId !in requestTracker {
        requestTracker := requestTracker[chatId := []];
      }
      assert requestTracker[chatId] == Stored(before, chatId);
      var kept := KeepNewer(requestTracker[chatId], hourAgo);
      requestTracker := requestTracker[chatId := kept];
      if |requestTracker[chatId]| >= Limit {
        return false;
      }
      requestTracker := requestTracker[chatId := requestTracker[chatId] + [now]];
      return true;
    }

    /** `get_conversation_context`: the fetched rows, newest first, walked in
        reverse and each expanded into a user and an assistant entry. */
    method GetConversationContext(history: seq<Row>, limit: int) returns (context: seq<Entry>)
      ensures context == Expanded(Fetched(history, limit))
    {
      var rows := Fetched(history, limit);
      context := [];
      var i := |rows|;
      while i > 0
        invariant 0 <= i <= |rows|
        invariant context == Expanded(rows[i..])
      {
        i := i - 1;
        assert rows[i..][1..] == rows[i + 1..];
        context := context + [Entry(User, rows[i].message), Entry(Assistant, rows[i].response)];
      }
    }

    /** `generate_response`: build the message list (system prompt, context,
        user message), cut it to 16 entries, call the completion service and
        strip its answer, or give the apology when the call fails. */
    method GenerateResponse(message: string, history: seq<Row>, completion: Option<string>)
      returns (request: Request, reply: string)
      ensures request == RequestFor(systemPrompt, history, message)
      ensures reply == ReplyText(completion)
    {
      var context := GetConversationContext(history, ContextLimit);
      var messages := [Entry(System, systemPrompt)];
      messages := messages + context;
      messages := messages + [Entry(User, message)];
      ghost var built := messages;
      if |messages| > MaxMessages {
        messages := messages[..1] + messages[|messages| - KeepRecent..];
      }
      assert messages == Truncate(built);
      request := Request(ModelName, messages, MaxTokens, Temperature);
      match completion {
        case None =>
          reply := Apology;
        case Some(text) =>
          reply := Strip(text);
      }
    }

    /** The answered path of `handle_message`: typing indicator, completion,
        save, reply, in that order. A failing typing indicator or save raises
        out of the handler, so nothing after it happens. */
    method AnswerMessage(chatId: int, userId: int, username: string, text: string, history: seq<Row>,
                         completion: Option<string>, typingOk: bool, saveOk: bool)
      returns (effects: seq<Effect>)
      ensures !typingOk ==> effects == [Typing(chatId)]
      ensures typingOk ==>
        var reply := ReplyText(completion);
        var answered := [Typing(chatId), Complete(RequestFor(systemPrompt, history, text)),
                         Save(Turn(chatId, userId, username, text, reply))];
        effects == if saveOk then answered + [Reply(reply)] else answered
    {
      if !typingOk {
        return [Typing(chatId)];
      }
      var request, reply := GenerateResponse(text, history, completion);
      var answered := [Typing(chatId), Complete(request), Save(Turn(chatId, userId, username, text, reply))];
      if !saveOk {
        return answered;
      }
      effects := answered + [Reply(reply)];
    }

    /** `handle_message`. An ignored message leaves the tracker alone and does
        nothing; a rate-limited one gets only the notice; an answered one goes
        through `AnswerMessage`. */
    method HandleMessage(chatId: int, userId: int, handle: string, firstName: string, repliesToBot: bool,
                         botUsername: string, text: string, now: int, history: seq<Row>,
                         completion: Option<string>, typingOk: bool, saveOk: bool)
      returns (effects: seq<Effect>)
      modifies this
      ensures var d := Decide(old(requestTracker), now, chatId, repliesToBot, botUsername, text);
        && requestTracker == d.tracker
        && (d.outcome == Ignore ==> effects == [])
        && (d.outcome == RateLimited ==> effects == [Reply(RateLimitNotice)])
        && (d.outcome == Respond && !typingOk ==> effects == [Typing(chatId)])
        && (d.outcome == Respond && typingOk ==>
              var reply := ReplyText(completion);
              var answered := [Typing(chatId), Complete(RequestFor(systemPrompt, history, text)),
                               Save(Turn(chatId, userId, DisplayName(handle, firstName), text, reply))];
              effects == if saveOk then answered + [Reply(reply)] else answered)
    {
      var username := DisplayName(handle, firstName);
      ghost var d := Decide(requestTracker, now, chatId, repliesToBot, botUsername, text);
      var respond := ShouldRespond(chatId, repliesToBot, botUsername, text);
      if !respond {
        assert d.outcome == Ignore;
        return [];
      }
      var allowed := CheckRateLimit(chatId, now);
      assert d.outcome == (if allowed then Respond else RateLimited);
      if !allowed {
        return [Reply(RateLimitNotice)];
      }
      effects := AnswerMessage(chatId, userId, username, text, history, completion, typingOk, saveOk);
    }
  }
}
