/** The decision `handle_message` takes before any reply is produced:
    whether the bot answers the message at all, and whether the chat's rate
    limit lets it. */
module Gate {
  import opened Text
  import opened RateWindow

  /** The words that make the bot answer a group message. */
  const Keywords: seq<string> :=
    ["bible", "scripture", "verse", "book", "god", "jesus", "music", "song", "chord", "Dead Raisers", "love"]

  /** Position of `"Dead Raisers"` in `Keywords`. */
  const DeadRaisersIndex: nat := 9

  /** `any(keyword in text for keyword in keywords)`. */
  function AnyKeyword(text: string, keywords: seq<string>): (r: bool)
    ensures r <==> exists k :: 0 <= k < |keywords| && Contains(text, keywords[k])
  {
    if keywords == [] then false
    else Contains(text, keywords[0]) || AnyKeyword(text, keywords[1..])
  }

  /** The `should_respond` flag. Private chats have positive ids; in a group
      the bot answers a reply to itself, a mention of its handle, or a text
      whose lower-cased form contains a keyword. */
  function ShouldRespond(chatId: int, repliesToBot: bool, botUsername: string, text: string): (r: bool)
    ensures chatId > 0 ==> r
    ensures chatId <= 0 ==>
      (r <==> || repliesToBot
              || Contains(text, "@" + botUsername)
              || exists k :: 0 <= k < |Keywords| && Contains(Lower(text), Keywords[k]))
  {
    if chatId > 0 then true
    else if repliesToBot then true
    else if Contains(text, "@" + botUsername) then true
    else AnyKeyword(Lower(text), Keywords)
  }

  /** The keyword "Dead Raisers" is matched against lower-cased text, so it
      never matches. */
  lemma DeadRaisersNeverMatches(text: string)
    ensures Keywords[DeadRaisersIndex] == "Dead Raisers"
    ensures !Contains(Lower(text), Keywords[DeadRaisersIndex])
  {
    LowerMissesUpper(text, Keywords[DeadRaisersIndex], 0);
  }

  /** The keywords that can actually fire: all of them but "Dead Raisers". */
  function LiveKeywords(): (ks: seq<string>)
    ensures |ks| == |Keywords| - 1
    ensures forall k :: 0 <= k < |ks| ==> ks[k] != "Dead Raisers" && ks[k] in Keywords
    ensures forall w :: w in Keywords && w != "Dead Raisers" ==> w in ks
  {
    Keywords[..DeadRaisersIndex] + Keywords[DeadRaisersIndex + 1..]
  }

  /** Removing "Dead Raisers" from the keyword list changes no decision: the
      gate behaves exactly as with the ten lower-case keywords. */
  lemma DeadRaisersIsInert(chatId: int, repliesToBot: bool, botUsername: string, text: string)
    ensures ShouldRespond(chatId, repliesToBot, botUsername, text) <==>
      || chatId > 0
      || repliesToBot
      || Contains(text, "@" + botUsername)
      || AnyKeyword(Lower(text), LiveKeywords())
  {
    var t := Lower(text);
    DeadRaisersNeverMatches(text);
    var live := LiveKeywords();
    if AnyKeyword(t, Keywords) {
      var k :| 0 <= k < |Keywords| && Contains(t, Keywords[k]);
      var k' := if k < DeadRaisersIndex then k else k - 1;
      assert live[k'] == Keywords[k];
    }
    if AnyKeyword(t, live) {
      var k :| 0 <= k < |live| && Contains(t, live[k]);
      var k' := if k < DeadRaisersIndex then k else k + 1;
      assert Keywords[k'] == live[k];
    }
  }

  datatype Outcome = Ignore | RateLimited | Respond

  /** What the handler does with the message and the limiter's state after it. */
  datatype Decision = Decision(outcome: Outcome, tracker: Tracker)

  /** The gate followed by the limiter: a message the bot does not answer
      never reaches the limiter; an answered one is counted against the
      chat and refused when the chat is over its limit. */
  function Decide(tracker: Tracker, now: int, chatId: int, repliesToBot: bool, botUsername: string,
                  text: string): (d: Decision)
    ensures d.outcome == Ignore <==> !ShouldRespond(chatId, repliesToBot, botUsername, text)
    ensures d.outcome == Ignore ==> d.tracker == tracker
    ensures d.outcome != Ignore ==> d.tracker == Admit(tracker, chatId, now).tracker
    ensures d.outcome == RateLimited <==>
      ShouldRespond(chatId, repliesToBot, botUsername, text)
      && |Prune(Stored(tracker, chatId), now - Window)| >= Limit
  {
    if !ShouldRespond(chatId, repliesToBot, botUsername, text) then Decision(Ignore, tracker)
    else
      var a := Admit(tracker, chatId, now);
      Decision(if a.allowed then Respond else RateLimited, a.tracker)
  }

  /** A private chat's message is never ignored, whatever it says. */
  lemma PrivateNeverIgnored(tracker: Tracker, now: int, chatId: int, repliesToBot: bool,
                            botUsername: string, text: string)
    requires chatId > 0
    ensures Decide(tracker, now, chatId, repliesToBot, botUsername, text).outcome != Ignore
  {
  }

  /** The decision touches no other chat's entry and keeps every chat within
      the limit. */
  lemma DecideIsolatesChats(tracker: Tracker, now: int, chatId: int, repliesToBot: bool,
                            botUsername: string, text: string)
    requires WithinLimit(tracker)
    ensures var d := Decide(tracker, now, chatId, repliesToBot, botUsername, text);
      && WithinLimit(d.tracker)
      && forall c :: c in tracker && c != chatId ==> c in d.tracker && d.tracker[c] == tracker[c]
  {
    AdmitKeepsWithinLimit(tracker, chatId, now);
  }

  /** The group message "Dead Raisers", which names the choir but neither
      replies to nor mentions the bot, is ignored although the name is one
      of the keywords. */
  lemma ChoirNameAloneIgnored(tracker: Tracker, now: int, chatId: int, botUsername: string)
    requires chatId <= 0
    ensures Decide(tracker, now, chatId, false, botUsername, "Dead Raisers").outcome == Ignore
  {
    var text := "Dead Raisers";
    DeadRaisersIsInert(chatId, false, botUsername, text);
    LacksFirstLetter(text, "@" + botUsername);
    LowerChoirName();
    NoLiveKeywordInChoirName();
  }

  /** Lower-casing the choir's name. */
  lemma LowerChoirName()
    ensures Lower("Dead Raisers") == "dead raisers"
  {
    var text, t := "Dead Raisers", "dead raisers";
    var r := Lower(text);
    forall i | 0 <= i < |t|
      ensures r[i] == t[i]
    {
      if IsUpper(text[i]) {
        assert r[i] as int == text[i] as int + 32;
      }
    }
  }

  /** No live keyword occurs in the lower-cased choir name. */
  lemma NoLiveKeywordInChoirName()
    ensures !AnyKeyword("dead raisers", LiveKeywords())
  {
    var live := LiveKeywords();
    forall k | 0 <= k < |live|
      ensures !Contains("dead raisers", live[k])
    {
      MissesChoirName(live[k]);
    }
  }

  /** None of the live keywords occurs in "dead raisers": each one's first
      two letters never appear there side by side. */
  lemma MissesChoirName(w: string)
    requires w in LiveKeywords()
    ensures !Contains("dead raisers", w)
  {
    var t := "dead raisers";
    forall i | 0 <= i <= |t| - |w|
      ensures !OccursAt(t, w, i)
    {
      assert t[i..i + |w|][0] == t[i] && t[i..i + |w|][1] == t[i + 1];
    }
  }

  /** A pattern whose first letter does not occur in `s` does not occur in `s`. */
  lemma LacksFirstLetter(s: string, sub: string)
    requires sub != [] && sub[0] !in s
    ensures !Contains(s, sub)
  {
    forall i | 0 <= i <= |s| - |sub|
      ensures !OccursAt(s, sub, i)
    {
      assert s[i..i + |sub|][0] == s[i];
    }
  }
}
