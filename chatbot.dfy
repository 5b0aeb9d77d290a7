/**
 * One chat turn: the send handler's guard and append, the delayed reply, and
 * the keyword classifier that picks the reply from the lower-cased message.
 */
module Chatbot {
  import opened Wrappers
  import opened Text

  datatype Role = UserRole | AssistantRole

  /**
   * What a bubble says: the text the user sent, the opening welcome for a
   * user name, or a generated reply. `ContentText` renders it.
   */
  datatype Content = Typed(text: string) | Welcome(userName: Option<string>) | Answer(reply: Reply)

  /** A chat bubble; the time stamp is display only and not kept. */
  datatype Message = Message(id: string, content: Content, role: Role)

  const GreetingTail := "! I'm your AI mental wellness companion. I'm here to provide support, guidance, and a listening ear whenever you need it. How are you feeling today?"

  /** The opening assistant message; without a user the name renders "undefined". */
  function Greeting(userName: Option<string>): (r: string)
    ensures |r| > 6 + |userName.GetOr("undefined")| && r[..6] == "Hello "
    ensures r[6..6 + |userName.GetOr("undefined")|] == userName.GetOr("undefined")
  {
    "Hello " + userName.GetOr("undefined") + GreetingTail
  }

  // ----- the keyword classifier -----

  /** The topics in the order they are tried. */
  datatype Topic = Sad | Anxious | Happy | Stressed | Unmatched

  function Keywords(t: Topic): seq<string> {
    match t
    case Sad => ["sad", "depressed", "down"]
    case Anxious => ["anxious", "anxiety", "worried"]
    case Happy => ["happy", "good", "great"]
    case Stressed => ["stressed", "overwhelmed"]
    case Unmatched => []
  }

  /** The position of a topic in the chain of checks. */
  function Rank(t: Topic): nat {
    match t
    case Sad => 0
    case Anxious => 1
    case Happy => 2
    case Stressed => 3
    case Unmatched => 4
  }

  /** `lower.includes(w1) || lower.includes(w2) || ...`, tried left to right. */
  function Mentions(lower: string, words: seq<string>): bool {
    words != [] && (Includes(lower, words[0]) || Mentions(lower, words[1..]))
  }

  /** The chain of `if`s in `generateAIResponse`, on the lower-cased message. */
  function TopicOf(userMessage: string): (r: Topic)
    ensures r != Unmatched ==> Mentions(ToLower(userMessage), Keywords(r))
    ensures forall t :: Rank(t) < Rank(r) ==> !Mentions(ToLower(userMessage), Keywords(t))
  {
    var lower := ToLower(userMessage);
    if Mentions(lower, Keywords(Sad)) then Sad
    else if Mentions(lower, Keywords(Anxious)) then Anxious
    else if Mentions(lower, Keywords(Happy)) then Happy
    else if Mentions(lower, Keywords(Stressed)) then Stressed
    else Unmatched
  }

  /** How many canned replies there are to draw from. */
  const CannedCount := 8

  /** A reply: the one of a matched topic, or the canned one at a drawn index. */
  datatype Reply = KeywordReply(topic: Topic) | Canned(index: nat)

  /** A reply that names a real topic or a drawn index in range. */
  predicate ValidReply(r: Reply) {
    match r
    case KeywordReply(t) => t != Unmatched
    case Canned(i) => i < CannedCount
  }

  /** The text of a reply, as the page shows it. */
  function ReplyText(r: Reply): string
    requires ValidReply(r)
  {
    match r
    case KeywordReply(Sad) => "I'm sorry you're feeling sad. It's okay to feel this way - sadness is a natural human emotion. Would you like to talk about what's contributing to these feelings? Sometimes sharing can help lighten the emotional load."
    case KeywordReply(Anxious) => "Anxiety can feel overwhelming, but you're not alone in this. Try taking a few deep breaths with me. What specific thoughts or situations are making you feel anxious today?"
    case KeywordReply(Happy) => "I'm so glad to hear you're feeling good! It's important to celebrate these positive moments. What's contributing to your happiness today?"
    case KeywordReply(Stressed) => "Feeling stressed is your body's way of telling you that you need care and attention. Let's work together to identify what's causing this stress and find healthy ways to manage it."
    case Canned(i) => CannedText(i)
  }

  /** The replies drawn at random when no keyword matches. */
  function CannedText(i: nat): string
    requires i < CannedCount
  {
    if i == 0 then "I hear you, and I want you to know that your feelings are completely valid. Sometimes just acknowledging how we feel is the first step toward healing."
    else if i == 1 then "Thank you for sharing that with me. It takes courage to open up about our inner experiences. What would help you feel more supported right now?"
    else if i == 2 then "I'm here to listen and support you. Remember, it's okay to have difficult days - they don't define your worth or your future."
    else if i == 3 then "That sounds challenging. You're doing great by reaching out and talking about it. What small step could you take today to care for yourself?"
    else if i == 4 then "I appreciate you trusting me with your thoughts. Sometimes talking through our feelings can help us see them from a new perspective."
    else if i == 5 then "Your mental health matters, and so do you. What brings you comfort or peace when you're feeling this way?"
    else if i == 6 then "It's wonderful that you're taking time to check in with yourself. Self-awareness is a powerful tool for wellbeing."
    else "I'm glad you're here. Remember, seeking support is a sign of strength, not weakness. What would make you feel most supported right now?"
  }

  /** The text a bubble shows. */
  function ContentText(c: Content): string
    requires c.Answer? ==> ValidReply(c.reply)
  {
    match c
    case Typed(text) => text
    case Welcome(userName) => Greeting(userName)
    case Answer(r) => ReplyText(r)
  }

  /** `generateAIResponse`; `fallback` is the random draw `Math.floor(Math.random() * 8)`. */
  function GenerateReply(userMessage: string, fallback: nat): (r: Reply)
    requires fallback < CannedCount
    ensures ValidReply(r)
    ensures r.Canned? <==> TopicOf(userMessage) == Unmatched
  {
    var t := TopicOf(userMessage);
    if t == Unmatched then Canned(fallback) else KeywordReply(t)
  }

  /** A keyword list matches exactly when some word in it occurs in the text. */
  lemma {:induction false} MentionsIff(lower: string, words: seq<string>)
    ensures Mentions(lower, words) <==> exists w :: w in words && Includes(lower, w)
  {
    if words != [] {
      MentionsIff(lower, words[1..]);
      if Includes(lower, words[0]) {
        assert words[0] in words;
      }
      if exists w :: w in words && Includes(lower, w) {
        var w :| w in words && Includes(lower, w);
        if w != words[0] {
          assert w in words[1..];
        }
      }
    }
  }

  /**
   * The first group that matches wins: a message gets a topic exactly when
   * one of its words occurs in the lower-cased message and no word of an
   * earlier group does; it is unmatched exactly when no keyword occurs.
   */
  lemma TopicOrder(userMessage: string, t: Topic)
    ensures var lower := ToLower(userMessage);
            TopicOf(userMessage) == t <==>
              (t == Unmatched || Mentions(lower, Keywords(t))) &&
              forall u: Topic :: Rank(u) < Rank(t) ==> !Mentions(lower, Keywords(u))
  {
    var lower := ToLower(userMessage);
    if TopicOf(userMessage) != t && (t == Unmatched || Mentions(lower, Keywords(t))) {
      var u := TopicOf(userMessage);
      assert Rank(u) < Rank(t) && Mentions(lower, Keywords(u));
    }
  }

  /**
   * Matching ignores case: a keyword written in any mix of capitals, anywhere
   * in the message, decides the topic unless a word of an earlier group
   * occurs too.
   */
  lemma KeywordAnywhere(before: string, word: string, after: string, t: Topic)
    requires t != Unmatched && ToLower(word) in Keywords(t)
    requires forall u: Topic :: Rank(u) < Rank(t) ==> !Mentions(ToLower(before + word + after), Keywords(u))
    ensures TopicOf(before + word + after) == t
  {
    var m := before + word + after;
    ToLowerConcat(before + word, after);
    ToLowerConcat(before, word);
    IncludesInfix(ToLower(before), ToLower(word), ToLower(after));
    MentionsIff(ToLower(m), Keywords(t));
    TopicOrder(m, t);
  }

  /** The topic, and so the reply, depends only on the lower-cased message. */
  lemma TopicIgnoresCase(userMessage: string)
    ensures TopicOf(ToLower(userMessage)) == TopicOf(userMessage)
  {
    ToLowerIdempotent(userMessage);
  }

  /**
   * A canned reply is given exactly when no keyword matches, and it is then
   * the drawn one; otherwise the reply is the matched topic's, whatever the draw.
   */
  lemma ReplyChoice(userMessage: string, fallback: nat)
    requires fallback < CannedCount
    ensures GenerateReply(userMessage, fallback) == Canned(fallback) <==> TopicOf(userMessage) == Unmatched
    ensures TopicOf(userMessage) != Unmatched ==>
            GenerateReply(userMessage, fallback) == KeywordReply(TopicOf(userMessage))
  {
  }

  // ----- the page -----

  class ChatbotPage {
    var messages: seq<Message>
    var inputMessage: string
    var isLoading: bool
    /** The text whose reply is waiting on its timer, if any. */
    var pending: Option<string>

    /** A reply is on its way exactly while the page shows it is loading. */
    ghost predicate Valid()
      reads this
    {
      isLoading <==> pending.Some?
    }

    constructor (userName: Option<string>)
      ensures Valid()
      ensures messages == [Message("1", Welcome(userName), AssistantRole)]
      ensures inputMessage == "" && !isLoading
    {
      messages := [Message("1", Welcome(userName), AssistantRole)];
      inputMessage := "";
      isLoading := false;
      pending := None;
    }

    /** The input box's change handler. */
    method TypeMessage(text: string)
      modifies this
      ensures inputMessage == text
      ensures messages == old(messages) && isLoading == old(isLoading) && pending == old(pending)
    {
      inputMessage := text;
    }

    /**
     * `handleSendMessage`: ignores blank input and sends while a reply is on
     * its way; otherwise appends the user's message, clears the input and
     * waits for the reply to the text as sent.
     */
    method HandleSendMessage(id: string)
      modifies this
      ensures Blank(old(inputMessage)) || old(isLoading) ==>
              messages == old(messages) && inputMessage == old(inputMessage) &&
              isLoading == old(isLoading) && pending == old(pending)
      ensures !Blank(old(inputMessage)) && !old(isLoading) ==>
              messages == old(messages) + [Message(id, Typed(old(inputMessage)), UserRole)] &&
              inputMessage == "" && isLoading && pending == Some(old(inputMessage))
      ensures old(Valid()) ==> Valid()
    {
      TrimEmptyIffBlank(inputMessage);
      if Trim(inputMessage) == [] || isLoading {
        return;
      }
      var userMessage := Message(id, Typed(inputMessage), UserRole);
      messages := messages + [userMessage];
      pending := Some(inputMessage);
      inputMessage := "";
      isLoading := true;
    }

    /** The reply timer fires: one assistant message is appended and loading ends. */
    method CompleteReply(id: string, fallback: nat)
      requires pending.Some? && fallback < CannedCount
      modifies this
      ensures messages == old(messages) + [Message(id, Answer(GenerateReply(old(pending).value, fallback)), AssistantRole)]
      ensures !isLoading && pending == None && Valid()
      ensures inputMessage == old(inputMessage)
    {
      var aiResponse := Message(id, Answer(GenerateReply(pending.value, fallback)), AssistantRole);
      messages := messages + [aiResponse];
      isLoading := false;
      pending := None;
    }
  }
}
