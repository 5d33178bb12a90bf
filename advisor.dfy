/** The "Expert Advice" tab: a canned-response advisor. The query is
    lower-cased, the keyword table is scanned in order, the response of the
    first keyword found in the query is chosen (the "default" entry is never
    matched as a keyword and supplies the fallback), the response is revealed
    character by character, and both turns are appended to the session's chat
    history. */
module Advisor {
  import opened Dicts

  // ---------------------------------------------------------------- strings

  function LowerChar(c: char): char {
    if 'A' <= c <= 'Z' then (c as int + 32) as char else c
  }

  /** `str.lower()` on the ASCII letters: same length, each capital replaced
      by its small letter, every other character kept. */
  function Lower(s: string): (r: string)
    ensures |r| == |s|
    ensures forall i :: 0 <= i < |r| ==> !('A' <= r[i] <= 'Z')
    ensures forall i :: 0 <= i < |s| && !('A' <= s[i] <= 'Z') ==> r[i] == s[i]
    ensures forall i :: 0 <= i < |s| && 'A' <= s[i] <= 'Z' ==> r[i] as int == s[i] as int + ('a' as int - 'A' as int)
  {
    seq(|s|, i requires 0 <= i < |s| => LowerChar(s[i]))
  }

  /** k occurs in s starting at position i. */
  ghost predicate OccursAt(k: string, s: string, i: nat) {
    i + |k| <= |s| && s[i..i + |k|] == k
  }

  /** k occurs in s at some position. */
  ghost predicate IsSubstring(k: string, s: string) {
    exists i: nat :: OccursAt(k, s, i)
  }

  /** Python's `k in s` for strings, by trying each start position in turn. */
  function Contains(s: string, k: string): (r: bool)
    ensures r <==> IsSubstring(k, s)
    decreases |s|
  {
    if |k| > |s| then false
    else if s[..|k|] == k then
      assert OccursAt(k, s, 0);
      true
    else
      ShiftSubstring(k, s);
      Contains(s[1..], k)
  }

  /** When k is not at the front of s, it occurs in s iff it occurs in s[1..]. */
  lemma ShiftSubstring(k: string, s: string)
    requires |k| <= |s| && s[..|k|] != k
    ensures IsSubstring(k, s) <==> IsSubstring(k, s[1..])
  {
    assert s[..|k|] == s[0..0 + |k|];
    if IsSubstring(k, s) {
      var i: nat :| OccursAt(k, s, i);
      assert i != 0;
      assert s[1..][i - 1..i - 1 + |k|] == s[i..i + |k|];
      assert OccursAt(k, s[1..], i - 1);
    }
    if IsSubstring(k, s[1..]) {
      var i: nat :| OccursAt(k, s[1..], i);
      assert s[i + 1..i + 1 + |k|] == s[1..][i..i + |k|];
      assert OccursAt(k, s, i + 1);
    }
  }

  // -------------------------------------------------------- response table

  /** A keyword-to-response dict, in insertion order. */
  type ResponseTable = seq<Entry<string>>

  /** `ai_responses`, in the dict's insertion order, which is the order
      `.items()` scans it. */
  const AiResponses: ResponseTable := [
    Entry("budget",
      "When setting a budget for a car purchase, consider not just the sticker price, but also ongoing costs like insurance, maintenance, fuel, and depreciation. A good rule of thumb is that your total car expenses should be no more than 15-20% of your monthly income."),
    Entry("electric",
      "Electric vehicles offer lower running costs, zero emissions, and often better performance. However, they typically have higher upfront costs and require charging infrastructure. Consider your daily driving distance and charging options before making the switch."),
    Entry("depreciation",
      "Depreciation is the difference between what you paid for your car and what you can sell it for. Luxury cars tend to depreciate faster, while reliable mainstream brands like Toyota and Honda typically hold their value better."),
    Entry("maintenance",
      "Regular maintenance is crucial for your car's longevity. Follow the manufacturer's recommended service schedule, keep your tires properly inflated, and address small issues before they become major problems."),
    Entry("default",
      "I'm your AI car advisor. I can help with questions about buying, selling, maintenance, models, or financing. Feel free to ask anything related to automobiles and I'll provide expert guidance.")
  ]

  /** The table is a dict (no keyword twice, so the list and the dict the
      display builds agree) and `ai_responses["default"]` exists. */
  ghost predicate ResponseDict(table: ResponseTable) {
    DistinctKeys(table) && Lookup(table, "default").Some?
  }

  /** The loop's test: the keyword occurs in the lower-cased query and is not
      the "default" key. */
  predicate Matches(keyword: string, query: string) {
    Contains(query, keyword) && keyword != "default"
  }

  /** The index of the first entry at or after `from` whose keyword matches. */
  function FirstMatch(table: ResponseTable, query: string, from: nat): (r: Option<nat>)
    requires from <= |table|
    ensures r.Some? ==> from <= r.value < |table| && Matches(table[r.value].key, query)
    ensures r.Some? ==> forall j :: from <= j < r.value ==> !Matches(table[j].key, query)
    ensures r.None? ==> forall j :: from <= j < |table| ==> !Matches(table[j].key, query)
    decreases |table| - from
  {
    if from == |table| then None
    else if Matches(table[from].key, query) then Some(from)
    else FirstMatch(table, query, from + 1)
  }

  /** The response the advisor gives to a query. */
  function Respond(table: ResponseTable, userQuery: string): string
    requires ResponseDict(table)
  {
    match FirstMatch(table, Lower(userQuery), 0)
    case Some(i) => table[i].value
    case None => Lookup(table, "default").value
  }

  /** The scan of lines 373-377: start from the default response and stop at
      the first keyword that matches. */
  method SelectResponse(aiResponses: ResponseTable, userQuery: string) returns (response: string)
    requires ResponseDict(aiResponses)
    ensures response == Respond(aiResponses, userQuery)
  {
    var query := Lower(userQuery);
    response := Lookup(aiResponses, "default").value;
    var k := 0;
    while k < |aiResponses|
      invariant 0 <= k <= |aiResponses|
      invariant FirstMatch(aiResponses, query, k) == FirstMatch(aiResponses, query, 0)
      invariant response == Lookup(aiResponses, "default").value
    {
      var keyword, resp := aiResponses[k].key, aiResponses[k].value;
      if Contains(query, keyword) && keyword != "default" {
        response := resp;
        break;
      }
      k := k + 1;
    }
  }

  /** The first keyword of the table, other than "default", that occurs in
      the lower-cased query decides the response. */
  lemma RespondFirstKeyword(table: ResponseTable, userQuery: string, i: nat)
    requires ResponseDict(table) && i < |table| && table[i].key != "default"
    requires IsSubstring(table[i].key, Lower(userQuery))
    requires forall j :: 0 <= j < i ==> table[j].key == "default" || !IsSubstring(table[j].key, Lower(userQuery))
    ensures Respond(table, userQuery) == table[i].value
  {
    var r := FirstMatch(table, Lower(userQuery), 0);
    assert Matches(table[i].key, Lower(userQuery));
    assert r.Some? && r.value <= i;
  }

  /** When no keyword other than "default" occurs in the lower-cased query,
      the response is the "default" entry's. */
  lemma RespondNoKeyword(table: ResponseTable, userQuery: string)
    requires ResponseDict(table)
    requires forall j :: 0 <= j < |table| ==> table[j].key == "default" || !IsSubstring(table[j].key, Lower(userQuery))
    ensures Respond(table, userQuery) == Lookup(table, "default").value
  {
  }

  /** The response is always one of the table's responses, and it is never
      chosen through the "default" key as a keyword. */
  lemma RespondFromTable(table: ResponseTable, userQuery: string)
    requires ResponseDict(table)
    ensures exists i :: 0 <= i < |table| && table[i].value == Respond(table, userQuery)
    ensures FirstMatch(table, Lower(userQuery), 0).Some? ==>
      table[FirstMatch(table, Lower(userQuery), 0).value].key != "default"
  {
    var r := FirstMatch(table, Lower(userQuery), 0);
    if r.Some? {
      assert table[r.value].value == Respond(table, userQuery);
    }
  }

  /** The shape of the page's table: the four keywords come first, in the
      order budget, electric, depreciation, maintenance, then "default", whose
      response differs from theirs. */
  ghost predicate KeywordOrder(table: ResponseTable) {
    |table| == 5 &&
    table[0].key == "budget" && table[1].key == "electric" &&
    table[2].key == "depreciation" && table[3].key == "maintenance" &&
    table[4].key == "default" &&
    forall j :: 0 <= j < 4 ==> table[j].value != table[4].value
  }

  /** `ai_responses` has that shape. */
  lemma AiResponsesShape()
    ensures KeywordOrder(AiResponses)
  {
  }

  /** A table of that shape answers from its last entry when nothing matches. */
  lemma KeywordOrderDefault(table: ResponseTable)
    requires KeywordOrder(table)
    ensures ResponseDict(table) && Lookup(table, "default") == Some(table[4].value)
  {
    assert DistinctKeys(table) by {
      forall i, j | 0 <= i < j < 5
        ensures table[i].key != table[j].key
      {
        assert |table[i].key| != |table[j].key|;
      }
    }
    assert table[4] == Entry("default", table[4].value);
  }

  /** With the page's table, the default answer comes back exactly when none
      of the four keywords occurs in the lower-cased query. */
  lemma AiRespondDefault(table: ResponseTable, userQuery: string)
    requires KeywordOrder(table)
    ensures ResponseDict(table)
    ensures Respond(table, userQuery) == table[4].value <==>
      forall j :: 0 <= j < 4 ==> !IsSubstring(table[j].key, Lower(userQuery))
  {
    KeywordOrderDefault(table);
    var r := FirstMatch(table, Lower(userQuery), 0);
    if forall j :: 0 <= j < 4 ==> !IsSubstring(table[j].key, Lower(userQuery)) {
      RespondNoKeyword(table, userQuery);
    } else {
      assert r.Some? && r.value < 4;
    }
  }

  /** A query about an electric car's budget gets the budget answer: keywords
      are tried in table order, not in the order they appear in the query. */
  lemma ElectricBudgetExample(table: ResponseTable)
    requires KeywordOrder(table)
    ensures ResponseDict(table)
    ensures Respond(table, "Electric car on a BUDGET?") == table[0].value
  {
    KeywordOrderDefault(table);
    var q := Lower("Electric car on a BUDGET?");
    assert q[18..24] == "budget";
    assert OccursAt("budget", q, 18);
    RespondFirstKeyword(table, "Electric car on a BUDGET?", 0);
  }

  /** Asking about "default" itself gets the fallback. */
  lemma DefaultKeywordExample(table: ResponseTable)
    requires KeywordOrder(table)
    ensures ResponseDict(table)
    ensures Respond(table, "default") == table[4].value
  {
    assert Lower("default") == "default";
    forall i: nat | i + 6 <= 7
      ensures !OccursAt("budget", "default", i)
    {
      assert "default"[i..i + 6][0] == "default"[i] != 'b';
    }
    AiRespondDefault(table, "default");
  }

  // ------------------------------------------------------------ typewriter

  /** The cursor glyph drawn after the text revealed so far. */
  const Cursor: char := '\U{258C}'

  /** Reveal the response one character at a time. `frames` is the sequence of
      texts the placeholder shows: after k+1 characters the first k+1
      characters and the cursor, and finally the whole response. */
  method Typewriter(response: string) returns (fullResponse: string, frames: seq<string>)
    ensures fullResponse == response
    ensures |frames| == |response| + 1
    ensures forall k :: 0 <= k < |response| ==> frames[k] == response[..k + 1] + [Cursor]
    ensures frames[|response|] == response
  {
    fullResponse := "";
    frames := [];
    for i := 0 to |response|
      invariant fullResponse == response[..i]
      invariant |frames| == i
      invariant forall k :: 0 <= k < i ==> frames[k] == response[..k + 1] + [Cursor]
    {
      fullResponse := fullResponse + [response[i]];
      frames := frames + [fullResponse + [Cursor]];
    }
    frames := frames + [fullResponse];
  }

  // ---------------------------------------------------------- chat history

  datatype Role = User | Assistant

  /** One `{"role": ..., "content": ...}` entry of the chat history. */
  datatype Message = Message(role: Role, content: string)

  /** One submitted query, and whether its run got as far as appending the
      advisor's answer. */
  datatype Turn = Turn(query: string, answered: bool)

  /** How far a rerun gets. A new submission while the answer is being typed
      stops the current run at its next Streamlit call, so a run may stop
      before it appends anything or between its two appends. */
  datatype RunEnd = Completes | StopsBeforeUserEntry | StopsAfterUserEntry

  /** The entries one turn adds: the query, then the answer if the run got
      that far. */
  function TurnMessages(table: ResponseTable, t: Turn): seq<Message>
    requires ResponseDict(table)
  {
    [Message(User, t.query)] + (if t.answered then [Message(Assistant, Respond(table, t.query))] else [])
  }

  /** The history after the given turns, in order. */
  function Transcript(table: ResponseTable, turns: seq<Turn>): seq<Message>
    requires ResponseDict(table)
  {
    if |turns| == 0 then []
    else Transcript(table, turns[..|turns| - 1]) + TurnMessages(table, turns[|turns| - 1])
  }

  /** A new turn adds its entries at the end of the history. */
  lemma TranscriptAppend(table: ResponseTable, turns: seq<Turn>, t: Turn)
    requires ResponseDict(table)
    ensures Transcript(table, turns + [t]) == Transcript(table, turns) + TurnMessages(table, t)
  {
    assert (turns + [t])[..|turns|] == turns;
  }

  /** Every turn's run ran to completion. */
  ghost predicate AllAnswered(turns: seq<Turn>) {
    forall k :: 0 <= k < |turns| ==> turns[k].answered
  }

  /** When no run was stopped, the history alternates user and assistant
      entries: the k-th query at position 2k and the advisor's answer to it
      right after. */
  lemma {:induction false} TranscriptShape(table: ResponseTable, turns: seq<Turn>)
    requires ResponseDict(table) && AllAnswered(turns)
    ensures |Transcript(table, turns)| == 2 * |turns|
    ensures forall k :: 0 <= k < |turns| ==>
      Transcript(table, turns)[2 * k] == Message(User, turns[k].query) &&
      Transcript(table, turns)[2 * k + 1] == Message(Assistant, Respond(table, turns[k].query))
  {
    if |turns| > 0 {
      var init := turns[..|turns| - 1];
      TranscriptShape(table, init);
      forall k | 0 <= k < |turns| - 1
        ensures Transcript(table, turns)[2 * k] == Message(User, turns[k].query)
        ensures Transcript(table, turns)[2 * k + 1] == Message(Assistant, Respond(table, turns[k].query))
      {
        assert init[k] == turns[k];
      }
    }
  }

  /** Whether or not runs were stopped, every assistant entry comes right
      after a user entry and is the advisor's answer to that query. */
  lemma {:induction false} AnswerFollowsQuestion(table: ResponseTable, turns: seq<Turn>, p: nat)
    requires ResponseDict(table)
    requires p < |Transcript(table, turns)| && Transcript(table, turns)[p].role == Assistant
    ensures 0 < p && Transcript(table, turns)[p - 1].role == User
    ensures Transcript(table, turns)[p].content == Respond(table, Transcript(table, turns)[p - 1].content)
  {
    var init := turns[..|turns| - 1];
    var prefix := Transcript(table, init);
    var last := TurnMessages(table, turns[|turns| - 1]);
    if p < |prefix| {
      AnswerFollowsQuestion(table, init, p);
    } else {
      assert p == |prefix| + 1 && last[0] == Message(User, turns[|turns| - 1].query);
    }
  }

  /** `st.session_state`: the chat history survives between reruns of the page. */
  class ChatSession {
    /** The table the advisor answers from; the page's is `AiResponses`. */
    const aiResponses: ResponseTable
    var chatHistory: seq<Message>
    /** The non-empty queries submitted so far, and which were answered. */
    ghost var turns: seq<Turn>

    ghost predicate Valid()
      reads this
    {
      ResponseDict(aiResponses) && chatHistory == Transcript(aiResponses, turns) &&
      forall k :: 0 <= k < |turns| ==> turns[k].query != ""
    }

    /** The history starts empty. */
    constructor ()
      ensures Valid() && aiResponses == AiResponses && chatHistory == [] && turns == []
    {
      aiResponses := AiResponses;
      chatHistory := [];
      turns := [];
      AiResponsesShape();
      KeywordOrderDefault(AiResponses);
    }

    /** One rerun with the chat input's value (None when nothing was
        submitted), ending as `end` says: a non-empty query adds the user
        entry and then, if the run completes, the advisor's answer; an empty
        or absent query, or a run stopped before the first append, leaves the
        history untouched. */
    method HandleInput(userQuery: Option<string>, end: RunEnd)
      requires Valid()
      modifies this
      ensures Valid()
      ensures userQuery.Some? && userQuery.value != "" && end == Completes ==>
        chatHistory == old(chatHistory) + [Message(User, userQuery.value), Message(Assistant, Respond(aiResponses, userQuery.value))] &&
        turns == old(turns) + [Turn(userQuery.value, true)]
      ensures userQuery.Some? && userQuery.value != "" && end == StopsAfterUserEntry ==>
        chatHistory == old(chatHistory) + [Message(User, userQuery.value)] &&
        turns == old(turns) + [Turn(userQuery.value, false)]
      ensures !(userQuery.Some? && userQuery.value != "") || end == StopsBeforeUserEntry ==>
        chatHistory == old(chatHistory) && turns == old(turns)
    {
      if userQuery.Some? && userQuery.value != "" && end != StopsBeforeUserEntry {
        var q := userQuery.value;
        chatHistory := chatHistory + [Message(User, q)];
        if end == Completes {
          var response := SelectResponse(aiResponses, q);
          var fullResponse, frames := Typewriter(response);
          chatHistory := chatHistory + [Message(Assistant, response)];
        }
        TranscriptAppend(aiResponses, turns, Turn(q, end == Completes));
        turns := turns + [Turn(q, end == Completes)];
      }
    }
  }

  /** In a history where no run was stopped, every user entry holds a
      non-empty query and is followed by the advisor's answer to it. */
  lemma HistoryPairs(table: ResponseTable, turns: seq<Turn>, history: seq<Message>, p: nat)
    requires ResponseDict(table) && AllAnswered(turns) && history == Transcript(table, turns)
    requires p < |history| && history[p].role == User
    ensures p + 1 < |history| && p % 2 == 0
    ensures history[p + 1] == Message(Assistant, Respond(table, history[p].content))
  {
    TranscriptShape(table, turns);
    var k := p / 2;
    assert k < |turns|;
    assert history[2 * k] == Message(User, turns[k].query);
  }
}
