/** How `get_conversation_context` and `generate_response` turn a chat's
    stored turns into the message list sent to the completion service. */
module Prompt {

  datatype Role = System | User | Assistant

  /** One `{"role": ..., "content": ...}` dictionary of the message list. */
  datatype Entry = Entry(role: Role, content: string)

  /** One `(message, response)` row of the conversations table. */
  datatype Row = Row(message: string, response: string)

  /** The default `limit` of `get_conversation_context`. */
  const ContextLimit: int := 10

  /** The message list is cut when it holds more than this many entries. */
  const MaxMessages: nat := 16

  /** How many trailing entries survive the cut, after the system prompt. */
  const KeepRecent: nat := 15

  /** How many whole turns fit in the entries kept after the system prompt,
      the new user message taking the last place. */
  const RecentTurns: nat := 7

  function Min(a: int, b: int): int {
    if a <= b then a else b
  }

  /** `SELECT ... ORDER BY timestamp DESC LIMIT ?` on the chat's rows, given
      newest first: the first `limit` of them, all of them when `limit` is
      negative (SQLite reads a negative LIMIT as no limit). */
  function Fetched(history: seq<Row>, limit: int): (r: seq<Row>)
    ensures |r| <= |history| && r == history[..|r|]
    ensures limit >= 0 ==> |r| == Min(|history|, limit)
    ensures limit < 0 ==> r == history
  {
    if limit < 0 || limit >= |history| then history else history[..limit]
  }

  /** The context list built from rows given newest first: the rows in
      oldest-first order, each as a user entry followed by an assistant entry. */
  function Expanded(rows: seq<Row>): (r: seq<Entry>)
    ensures |r| == 2 * |rows|
  {
    if rows == [] then []
    else Expanded(rows[1..]) + [Entry(User, rows[0].message), Entry(Assistant, rows[0].response)]
  }

  /** Entries `2i` and `2i+1` are the message and the response of the `i`-th
      oldest row. */
  lemma {:induction false} ExpandedAt(rows: seq<Row>, i: int)
    requires 0 <= i < |rows|
    ensures Expanded(rows)[2 * i] == Entry(User, rows[|rows| - 1 - i].message)
    ensures Expanded(rows)[2 * i + 1] == Entry(Assistant, rows[|rows| - 1 - i].response)
  {
    if i < |rows| - 1 {
      ExpandedAt(rows[1..], i);
    }
  }

  /** Newer rows land after older ones. */
  lemma {:induction false} ExpandedConcat(newer: seq<Row>, older: seq<Row>)
    ensures Expanded(newer + older) == Expanded(older) + Expanded(newer)
  {
    if newer == [] {
      assert newer + older == older;
    } else {
      assert (newer + older)[1..] == newer[1..] + older;
      ExpandedConcat(newer[1..], older);
    }
  }

  /** `messages[:1] + messages[-15:]` when the list is longer than 16. */
  function Truncate(messages: seq<Entry>): (r: seq<Entry>)
    ensures |r| <= MaxMessages
    ensures |messages| <= MaxMessages ==> r == messages
    ensures |messages| > MaxMessages ==>
      && |r| == MaxMessages
      && r[0] == messages[0]
      && forall k :: 1 <= k < |r| ==> r[k] == messages[|messages| - |r| + k]
    ensures messages != [] ==> r != [] && r[0] == messages[0] && r[|r| - 1] == messages[|messages| - 1]
  {
    if |messages| > MaxMessages then messages[..1] + messages[|messages| - KeepRecent..] else messages
  }

  /** The list passed to the completion service: the system prompt, the
      context, the new user message, then cut to at most 16 entries. */
  function Assemble(systemPrompt: string, context: seq<Entry>, message: string): (r: seq<Entry>)
    ensures 0 < |r| <= MaxMessages
    ensures r[0] == Entry(System, systemPrompt)
    ensures r[|r| - 1] == Entry(User, message)
    ensures |context| + 2 <= MaxMessages ==> r == [Entry(System, systemPrompt)] + context + [Entry(User, message)]
  {
    Truncate([Entry(System, systemPrompt)] + context + [Entry(User, message)])
  }

  /** The prompt holds exactly the system prompt, the (at most) seven most
      recent turns of the chat in oldest-first order and the new message: the
      cut never splits a turn, and of the ten rows fetched the three oldest
      never reach the prompt. */
  lemma AssembledIsRecentTurns(systemPrompt: string, history: seq<Row>, message: string)
    ensures Assemble(systemPrompt, Expanded(Fetched(history, ContextLimit)), message)
      == [Entry(System, systemPrompt)] + Expanded(history[..Min(|history|, RecentTurns)]) + [Entry(User, message)]
  {
    var rows := Fetched(history, ContextLimit);
    var sys, user := Entry(System, systemPrompt), Entry(User, message);
    if |rows| > RecentTurns {
      var recent := rows[..RecentTurns];
      assert rows == recent + rows[RecentTurns..];
      ExpandedConcat(recent, rows[RecentTurns..]);
      var older := Expanded(rows[RecentTurns..]);
      var m := [sys] + older + Expanded(recent) + [user];
      assert [sys] + Expanded(rows) + [user] == m;
      assert m[|m| - KeepRecent..] == Expanded(recent) + [user];
      assert recent == history[..Min(|history|, RecentTurns)];
    } else {
      assert rows == history[..Min(|history|, RecentTurns)];
    }
  }

  /** After the system prompt, the roles alternate user, assistant, user, ...
      and the list ends on the new user message. */
  lemma AssembledAlternates(systemPrompt: string, history: seq<Row>, message: string)
    ensures var r := Assemble(systemPrompt, Expanded(Fetched(history, ContextLimit)), message);
      forall i :: 1 <= i < |r| ==> r[i].role == if i % 2 == 1 then User else Assistant
  {
    AssembledIsRecentTurns(systemPrompt, history, message);
    FramedAlternates(systemPrompt, history[..Min(|history|, RecentTurns)], message);
  }

  /** The alternation holds for the system prompt, any expanded rows and a user message. */
  lemma FramedAlternates(systemPrompt: string, rows: seq<Row>, message: string)
    ensures var r := [Entry(System, systemPrompt)] + Expanded(rows) + [Entry(User, message)];
      forall i :: 1 <= i < |r| ==> r[i].role == if i % 2 == 1 then User else Assistant
  {
    var e := Expanded(rows);
    var r := [Entry(System, systemPrompt)] + e + [Entry(User, message)];
    forall i | 1 <= i < |r|
      ensures r[i].role == if i % 2 == 1 then User else Assistant
    {
      if i < |r| - 1 {
        var t := (i - 1) / 2;
        assert i - 1 == 2 * t || i - 1 == 2 * t + 1;
        ExpandedAt(rows, t);
        assert r[i] == e[i - 1];
      }
    }
  }
}
