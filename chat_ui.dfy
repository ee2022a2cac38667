/** The chat transcript: the word-by-word sentence builder, the history window and the
    language prefix that `handleSend` picks, and the state updater behind `onWord`. Fetches,
    React state setters and rendering are left to the caller; the functions here compute
    what the component hands to them. */
module ChatUi {
  import opened JsText
  import LinkMappings

  datatype Message = Message(role: string, text: string, isBuilding: bool)

  const UserRole: string := "user"
  const BotRole: string := "Matthew"

  //------------------------------------------------------------------
  // appendToken
  //------------------------------------------------------------------

  /** Tokens that attach to the previous word without a space. */
  const NoSpaceBefore: seq<string> := [".", ",", "!", "?", ":", ";"]

  predicate EndsWithAt(s: string) {
    |s| > 0 && s[|s| - 1] == '@'
  }

  /** A space goes between existing text and the token exactly when the token is not
      punctuation, the text does not end in '@' and the text is not empty. */
  predicate NeedsSpace(existing: string, token: string) {
    token !in NoSpaceBefore && !EndsWithAt(existing) && existing != ""
  }

  /** `appendToken`: the existing text stays in front and the token ends the result; in
      between there is one space or nothing. The empty text is falsy, so it gives the token. */
  function AppendToken(existing: string, token: string): (r: string)
    ensures |r| == |existing| + |token| + (if NeedsSpace(existing, token) then 1 else 0)
    ensures existing <= r && r[|r| - |token|..] == token
    ensures NeedsSpace(existing, token) ==> r[|existing|] == ' '
  {
    if token in NoSpaceBefore then existing + token
    else if EndsWithAt(existing) then existing + token
    else if existing != "" then existing + " " + token
    else token
  }

  /** The sentence after the tokens have arrived one by one, starting from the empty text. */
  function AppendAll(tokens: seq<string>): string
  {
    if tokens == [] then "" else AppendToken(AppendAll(tokens[..|tokens| - 1]), tokens[|tokens| - 1])
  }

  /** The words joined with one space between neighbours. */
  function JoinWithSpaces(ws: seq<string>): string
  {
    if ws == [] then ""
    else if |ws| == 1 then ws[0]
    else JoinWithSpaces(ws[..|ws| - 1]) + " " + ws[|ws| - 1]
  }

  /** A word that is neither punctuation nor empty and does not end in '@'. */
  predicate PlainWord(w: string) {
    w != "" && w !in NoSpaceBefore && !EndsWithAt(w)
  }

  /** Plain words arriving one by one build the sentence with single spaces between them. */
  lemma {:induction false} PlainWordsJoinWithSpaces(ws: seq<string>)
    requires forall k :: 0 <= k < |ws| ==> PlainWord(ws[k])
    ensures AppendAll(ws) == JoinWithSpaces(ws)
    ensures ws != [] ==> AppendAll(ws) != "" && !EndsWithAt(AppendAll(ws))
  {
    if ws != [] {
      var init := ws[..|ws| - 1];
      var w := ws[|ws| - 1];
      PlainWordsJoinWithSpaces(init);
      var r := AppendAll(ws);
      assert r[|r| - |w|..] == w;
      assert r[|r| - 1] == w[|w| - 1];
    }
  }

  /** The text only ever grows: what was built after k tokens is a prefix of what is built
      after all of them. */
  lemma {:induction false} AppendAllGrows(tokens: seq<string>, k: nat)
    requires k <= |tokens|
    ensures AppendAll(tokens[..k]) <= AppendAll(tokens)
    decreases |tokens| - k
  {
    if k < |tokens| {
      var init := tokens[..|tokens| - 1];
      assert tokens[..|tokens|] == tokens;
      assert init[..k] == tokens[..k];
      AppendAllGrows(init, k);
    } else {
      assert tokens[..k] == tokens;
    }
  }

  //------------------------------------------------------------------
  // handleSend
  //------------------------------------------------------------------

  /** `messages.filter(m => m.role === role)`: exactly the messages with that role, in order. */
  function WithRole(ms: seq<Message>, role: string): (r: seq<Message>)
    ensures |r| <= |ms|
    ensures forall k :: 0 <= k < |r| ==> r[k].role == role && r[k] in ms
    ensures forall k :: 0 <= k < |ms| && ms[k].role == role ==> ms[k] in r
  {
    if ms == [] then []
    else WithRole(ms[..|ms| - 1], role) + (if ms[|ms| - 1].role == role then [ms[|ms| - 1]] else [])
  }

  /** A single message is kept exactly when it has the role. */
  lemma WithRoleSingle(m: Message, role: string)
    ensures WithRole([m], role) == (if m.role == role then [m] else [])
  {
    assert [m][..0] == [];
  }

  /** The filter works piecewise, so it keeps order and multiplicity: every message of the
      role appears in the result once per occurrence, at its place relative to the others. */
  lemma {:induction false} WithRoleAppend(a: seq<Message>, b: seq<Message>, role: string)
    ensures WithRole(a + b, role) == WithRole(a, role) + WithRole(b, role)
    decreases |b|
  {
    if b == [] {
      assert a + b == a;
    } else {
      assert (a + b)[..|a + b| - 1] == a + b[..|b| - 1];
      WithRoleAppend(a, b[..|b| - 1], role);
    }
  }

  /** `.slice(-n)` for n > 0: the last n elements, or all of a shorter sequence. */
  function LastN<T>(s: seq<T>, n: nat): (r: seq<T>)
    ensures |r| == Min(n, |s|) && r == s[|s| - |r|..]
  {
    s[|s| - Min(n, |s|)..]
  }

  /** The history sent with a query: the last three user messages, then the last three bot
      messages, each group in its original order. */
  function ContextWindow(ms: seq<Message>): (r: seq<Message>)
    ensures var users, bots := WithRole(ms, UserRole), WithRole(ms, BotRole);
      && |r| == Min(3, |users|) + Min(3, |bots|)
      && r[..Min(3, |users|)] == users[|users| - Min(3, |users|)..]
      && r[Min(3, |users|)..] == bots[|bots| - Min(3, |bots|)..]
  {
    var users := LastN(WithRole(ms, UserRole), 3);
    var bots := LastN(WithRole(ms, BotRole), 3);
    assert (users + bots)[..|users|] == users && (users + bots)[|users|..] == bots;
    users + bots
  }

  /** Every message of the window comes from the transcript; the user messages come first. */
  lemma ContextFromTranscript(ms: seq<Message>)
    ensures var r := ContextWindow(ms); var n := Min(3, |WithRole(ms, UserRole)|);
      && (forall k :: 0 <= k < |r| ==> r[k] in ms)
      && (forall k :: 0 <= k < n ==> r[k].role == UserRole)
      && (forall k :: n <= k < |r| ==> r[k].role == BotRole)
  {
    var r := ContextWindow(ms);
    var users, bots := WithRole(ms, UserRole), WithRole(ms, BotRole);
    var n := Min(3, |users|);
    forall k | 0 <= k < |r|
      ensures r[k] in ms
      ensures k < n ==> r[k].role == UserRole
      ensures n <= k ==> r[k].role == BotRole
    {
      if k < n {
        assert r[k] == r[..n][k] == users[|users| - n + k];
      } else {
        assert r[k] == r[n..][k - n] == bots[|bots| - Min(3, |bots|) + k - n];
      }
    }
  }

  /** `Object.keys(voices).includes(msg.slice(0, 2)) ? msg.slice(0, 2) : "en"`, with the key
      set of the voices table as a parameter. */
  function LanguageCode(msg: string, voiceKeys: set<string>): (code: string)
    ensures code == SliceTo(msg, 2) <==> SliceTo(msg, 2) in voiceKeys || SliceTo(msg, 2) == "en"
    ensures code != SliceTo(msg, 2) ==> code == "en"
    ensures code in voiceKeys || code == "en"
  {
    var prefix := SliceTo(msg, 2);
    if prefix in voiceKeys then prefix else "en"
  }

  /** The body posted to `/api/chat`. */
  datatype ChatRequest = ChatRequest(query: string, context: seq<Message>, language: string)

  /** The effects of `handleSend` before its fetch. A blank input does nothing. Otherwise the
      trimmed input is appended as a user message, and the request carries it, the window
      taken from the messages as they were before this send (the state the handler closed
      over), and its language prefix. */
  function HandleSend(input: string, messages: seq<Message>, voiceKeys: set<string>)
    : (r: Option<(seq<Message>, ChatRequest)>)
    ensures r.None? <==> IsBlank(input)
    ensures r.Some? ==>
      var query := Trim(input);
      && query != ""
      && r.value.0 == messages + [Message(UserRole, query, false)]
      && r.value.1 == ChatRequest(query, ContextWindow(messages), LanguageCode(query, voiceKeys))
  {
    var userMessage := Trim(input);
    if userMessage == "" then None
    else Some((messages + [Message(UserRole, userMessage, false)],
               ChatRequest(userMessage, ContextWindow(messages), LanguageCode(userMessage, voiceKeys))))
  }

  const FallbackReply: string := "Sorry, I couldn't think of a reply."

  /** What `handleSend` does with the answer: the message list with an empty, still-building
      bot message, the linked HTML of the reply, and the text and language to speak. */
  datatype ReplyEffects = ReplyEffects(messages: seq<Message>, html: string, speakText: string, language: string)

  /** `data.response || fallback`, its language prefix, and the reply with its first three
      characters (the "xx " prefix) dropped for display and speech. */
  function HandleReply(messages: seq<Message>, response: Option<string>, voiceKeys: set<string>): (r: ReplyEffects)
    ensures var bot := if response.None? || response.value == "" then FallbackReply else response.value;
      && r.messages == messages + [Message(BotRole, "", true)]
      && SliceTo(bot, 3) + r.speakText == bot && |r.speakText| == |bot| - Min(3, |bot|)
      && r.html == LinkMappings.PhrasesToLinks(r.speakText)
      && r.language == LanguageCode(bot, voiceKeys)
  {
    var botMessage := if response.None? || response.value == "" then FallbackReply else response.value;
    var cleanMessage := SliceFrom(botMessage, 3);
    ReplyEffects(messages + [Message(BotRole, "", true)], LinkMappings.PhrasesToLinks(cleanMessage),
                 cleanMessage, LanguageCode(botMessage, voiceKeys))
  }

  //------------------------------------------------------------------
  // onWord
  //------------------------------------------------------------------

  /** The `setMessages` updater of `onWord(word, i, info)`; `isLastWord` is `info?.isLastWord`,
      absent when the avatar passes no `info`. Only a still-building last message changes:
      it gets the word appended and the phrases linked, and keeps building unless this was
      the last word. Any other list is returned as it is. */
  function OnWord(prev: seq<Message>, word: string, isLastWord: Option<bool>): (r: seq<Message>)
    ensures |r| == |prev|
    ensures prev == [] || !prev[|prev| - 1].isBuilding ==> r == prev
    ensures prev != [] && prev[|prev| - 1].isBuilding ==>
      && r[..|prev| - 1] == prev[..|prev| - 1]
      && r[|prev| - 1] == Message(BotRole, LinkMappings.PhrasesToLinks(AppendToken(prev[|prev| - 1].text, word)),
                                  isLastWord != Some(true))
  {
    if prev != [] && prev[|prev| - 1].isBuilding then
      var last := prev[|prev| - 1];
      var newText := AppendToken(last.text, word);
      prev[..|prev| - 1] + [Message(BotRole, LinkMappings.PhrasesToLinks(newText), !(isLastWord == Some(true)))]
    else prev
  }

  /** The avatar calls `onWord(word, i)` without `info`, so the message keeps building. */
  lemma OnWordKeepsBuilding(prev: seq<Message>, word: string)
    requires prev != [] && prev[|prev| - 1].isBuilding
    ensures OnWord(prev, word, None)[|prev| - 1].isBuilding
  {
  }

  /** When the extended text contains no table phrase, the bot message is exactly the old
      text with the word appended by `appendToken`. */
  lemma OnWordWithoutPhrases(prev: seq<Message>, word: string, isLastWord: Option<bool>)
    requires prev != [] && prev[|prev| - 1].isBuilding
    requires forall k :: 0 <= k < |LinkMappings.Table| ==>
      !LinkMappings.ContainsPhrase(AppendToken(prev[|prev| - 1].text, word), LinkMappings.Table[k].phrase)
    ensures OnWord(prev, word, isLastWord)[|prev| - 1].text == AppendToken(prev[|prev| - 1].text, word)
  {
  }

  /** Replaying the words of a reply on the empty building message: when no prefix of the
      sentence contains a table phrase, the message ends up holding the tokens as
      `appendToken` joins them. */
  lemma {:induction false} OnWordsBuildSentence(history: seq<Message>, words: seq<string>)
    requires forall n, k :: 0 <= n <= |words| && 0 <= k < |LinkMappings.Table| ==>
      !LinkMappings.ContainsPhrase(AppendAll(words[..n]), LinkMappings.Table[k].phrase)
    ensures Replay(history + [Message(BotRole, "", true)], words)
            == history + [Message(BotRole, AppendAll(words), true)]
  {
    if words != [] {
      var init := words[..|words| - 1];
      forall n, k | 0 <= n <= |init| && 0 <= k < |LinkMappings.Table|
        ensures !LinkMappings.ContainsPhrase(AppendAll(init[..n]), LinkMappings.Table[k].phrase)
      {
        assert init[..n] == words[..n];
      }
      OnWordsBuildSentence(history, init);
      var before := history + [Message(BotRole, AppendAll(init), true)];
      assert words[..|words|] == words;
      OnWordWithoutPhrases(before, words[|words| - 1], None);
      assert before[..|before| - 1] == history;
    }
  }

  /** The message list after the avatar has called `onWord` for each word in turn. */
  function Replay(ms: seq<Message>, words: seq<string>): seq<Message>
  {
    if words == [] then ms else OnWord(Replay(ms, words[..|words| - 1]), words[|words| - 1], None)
  }
}
