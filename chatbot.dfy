/** The floating chat assistant (src/components/Chatbot.tsx): the reply
    chosen by keyword, the message list with its numeric ids, the delayed
    reply and the welcome message. */
module Chatbot {
  import opened Text
  import opened LangContext

  // ---------------------------------------------------------------------
  // Choosing the reply

  function ApplyWords(): seq<string> {
    ["تسجيل", "التقديم", "apply", "register", "قدم"]
  }

  function CompetitionWords(): seq<string> {
    ["مسابقة", "مسابقات", "competition", "contest"]
  }

  function UploadWords(): seq<string> {
    ["رفع", "ملف", "ملفات", "upload", "file"]
  }

  /** The text contains one of the words. */
  predicate MentionsAny(s: string, words: seq<string>) {
    exists i :: 0 <= i < |words| && Contains(s, words[i])
  }

  datatype ReplyKind = ApplyReply | CompetitionReply | UploadReply | DefaultReply

  /** The translation key of each reply. */
  function ReplyKey(k: ReplyKind): string {
    match k
    case ApplyReply => "chatbotApplyReply"
    case CompetitionReply => "chatbotCompetitionReply"
    case UploadReply => "chatbotUploadReply"
    case DefaultReply => "chatbotDefaultReply"
  }

  /** getBotResponse's keyword tests on the lower-cased message, in their
      fixed order: registration words win over competition words, which win
      over upload words; a message with none gets the default reply. */
  function Classify(message: string): (k: ReplyKind)
    ensures k == ApplyReply <==> MentionsAny(Lower(message), ApplyWords())
    ensures k == CompetitionReply <==>
      !MentionsAny(Lower(message), ApplyWords()) && MentionsAny(Lower(message), CompetitionWords())
    ensures k == UploadReply <==>
      && !MentionsAny(Lower(message), ApplyWords())
      && !MentionsAny(Lower(message), CompetitionWords())
      && MentionsAny(Lower(message), UploadWords())
    ensures k == DefaultReply <==>
      && !MentionsAny(Lower(message), ApplyWords())
      && !MentionsAny(Lower(message), CompetitionWords())
      && !MentionsAny(Lower(message), UploadWords())
  {
    var lower := Lower(message);
    if MentionsAny(lower, ApplyWords()) then ApplyReply
    else if MentionsAny(lower, CompetitionWords()) then CompetitionReply
    else if MentionsAny(lower, UploadWords()) then UploadReply
    else DefaultReply
  }

  /** The reply does not depend on letter case. */
  lemma ClassifyIgnoresCase(message: string)
    ensures Classify(Lower(message)) == Classify(message)
  {
    LowerIdempotent(message);
  }

  /** Whatever a message says, adding the word "Apply" to it, in any case,
      makes the reply the registration reply: upload or competition words
      in it no longer count. */
  lemma ApplyWordWins(message: string, word: string)
    requires Lower(word) == "apply"
    ensures Classify(message + " " + word) == ApplyReply
  {
    var m := message + " " + word;
    assert Lower(m) == Lower(message) + " " + Lower(word) by {
      assert forall i :: 0 <= i < |m| ==> Lower(m)[i] == (Lower(message) + " " + Lower(word))[i];
    }
    var k := |message| + 1;
    assert Lower(m)[k..k + 5] == "apply";
    ContainsAt(Lower(m), "apply", k);
    assert ApplyWords()[2] == "apply";
  }

  /** The text of the reply, looked up in the table `t` reads from: never
      empty, whatever the table holds. */
  function BotResponse(table: map<string, string>, message: string): (r: string)
    ensures r != ""
  {
    LookupNeverEmpty(table, ReplyKey(Classify(message)));
    Lookup(table, ReplyKey(Classify(message)))
  }

  /** Under either language the reply is what `t` gives for the reply's
      key. */
  lemma BotResponseTranslated(l: Language, message: string)
    ensures Translate(l, ReplyKey(Classify(message))) == BotResponse(Table(l), message)
  {
    TableOfCode(l);
  }

  // ---------------------------------------------------------------------
  // The message list

  datatype Message = Message(id: int, text: string, isBot: bool)

  /** A reply whose timer is running: its id and text are fixed when the
      message is sent. */
  datatype PendingReply = PendingReply(id: int, text: string)

  /** The chat's state: the list, the replies still to come in the order
      their timers fire, the input box and the typing indicator. */
  datatype ChatState = ChatState(messages: seq<Message>, pending: seq<PendingReply>, input: string, typing: bool)

  /** handleSendMessage as written: a blank input sends nothing; otherwise
      the user's message gets the list's length plus one, the reply (the
      text getBotResponse gives for the input) is scheduled with the length
      plus two (both read when the message is sent), and the box is
      cleared. */
  function SendAsWritten(s: ChatState, reply: string): ChatState {
    if Blank(s.input) then s
    else
      ChatState(s.messages + [Message(|s.messages| + 1, s.input, false)],
                s.pending + [PendingReply(|s.messages| + 2, reply)],
                "", true)
  }

  /** The first timer fires: its reply is appended and typing stops. */
  function Deliver(s: ChatState): ChatState
    requires s.pending != []
  {
    ChatState(s.messages + [Message(s.pending[0].id, s.pending[0].text, true)], s.pending[1..], s.input, false)
  }

  /** Every message's id is its position plus one, so ids are distinct. */
  predicate Positional(ms: seq<Message>) {
    forall i :: 0 <= i < |ms| ==> ms[i].id == i + 1
  }

  /** A message followed by its reply, with nothing in between, appends the
      two with the next two ids and keeps the ids positional. */
  lemma SendThenReply(s: ChatState, reply: string)
    requires Positional(s.messages) && s.pending == [] && !Blank(s.input)
    ensures SendAsWritten(s, reply).pending != []
    ensures var t := Deliver(SendAsWritten(s, reply));
      && t.messages == s.messages + [Message(|s.messages| + 1, s.input, false),
                                     Message(|s.messages| + 2, reply, true)]
      && Positional(t.messages)
      && t.pending == [] && t.input == "" && !t.typing
  {
  }

  /** As written, a second message sent before the first reply arrives gets
      the id already promised to that reply: after both replies the list
      holds two messages with the same id, which React uses as the key. */
  lemma QuickSecondSendDuplicatesId(s: ChatState, reply1: string, second: string, reply2: string)
    requires Positional(s.messages) && s.pending == [] && !Blank(s.input) && !Blank(second)
    ensures var a := SendAsWritten(s, reply1);
      var b := SendAsWritten(a.(input := second), reply2);
      && |b.pending| == 2
      && var t := Deliver(Deliver(b));
      && |t.messages| == |s.messages| + 4
      && t.messages[|s.messages| + 1].id == |s.messages| + 2
      && t.messages[|s.messages| + 2].id == |s.messages| + 2
      && !Positional(t.messages)
  {
  }

  /** The evident intent: each message takes the next id when it is added
      to the list, the reply included. */
  function SendFixed(s: ChatState, reply: string): ChatState {
    if Blank(s.input) then s
    else
      ChatState(s.messages + [Message(|s.messages| + 1, s.input, false)],
                s.pending + [PendingReply(0, reply)],
                "", true)
  }

  function DeliverFixed(s: ChatState): ChatState
    requires s.pending != []
  {
    ChatState(s.messages + [Message(|s.messages| + 1, s.pending[0].text, true)], s.pending[1..], s.input, false)
  }

  /** With the fix, sending and delivering in any interleaving keep the ids
      positional, hence distinct. */
  lemma FixedIdsStayPositional(s: ChatState, reply: string)
    requires Positional(s.messages)
    ensures Positional(SendFixed(s, reply).messages)
    ensures s.pending != [] ==> Positional(DeliverFixed(s).messages)
  {
  }

  /** The welcome message, the first in the list. */
  function Welcome(table: map<string, string>): Message {
    Message(1, Lookup(table, "chatbotWelcome"), true)
  }

  /** The window, created under one language: `table` is the dictionary
      its `t` reads from. */
  class ChatWindow {
    const lang: Language
    const table: map<string, string>
    var isOpen: bool
    var messages: seq<Message>
    var pending: seq<PendingReply>
    var inputValue: string
    var isTyping: bool

    function State(): ChatState
      reads this
    {
      ChatState(messages, pending, inputValue, isTyping)
    }

    constructor (lang: Language)
      ensures this.lang == lang && table == Table(lang) && !isOpen
      ensures State() == ChatState([], [], "", false)
    {
      this.lang := lang;
      table := Table(lang);
      isOpen := false;
      messages, pending, inputValue, isTyping := [], [], "", false;
    }

    /** The floating button, followed by the welcome effect: the welcome
        message is added only when the window opens on an empty list, so
        closing and reopening never repeats it. */
    method ToggleOpen()
      modifies this
      ensures isOpen == !old(isOpen)
      ensures isOpen && old(messages) == [] ==> messages == [Welcome(table)] && Positional(messages)
      ensures !(isOpen && old(messages) == []) ==> messages == old(messages)
      ensures pending == old(pending) && inputValue == old(inputValue) && isTyping == old(isTyping)
    {
      isOpen := !isOpen;
      if isOpen && |messages| == 0 {
        messages := [Welcome(table)];
      }
    }

    method SetInput(v: string)
      modifies this
      ensures inputValue == v && messages == old(messages) && pending == old(pending)
      ensures isTyping == old(isTyping) && isOpen == old(isOpen)
    {
      inputValue := v;
    }

    /** handleSendMessage, ids as written. */
    method SendMessage()
      modifies this
      ensures State() == SendAsWritten(old(State()), BotResponse(table, old(inputValue)))
      ensures isOpen == old(isOpen)
    {
      var reply := BotResponse(table, inputValue);
      if Blank(inputValue) {
        return;
      }
      var n := |messages|;
      pending := pending + [PendingReply(n + 2, reply)];
      messages := messages + [Message(n + 1, inputValue, false)];
      inputValue := "";
      isTyping := true;
    }

    /** The oldest reply timer fires. */
    method DeliverReply()
      requires pending != []
      modifies this
      ensures State() == Deliver(old(State()))
      ensures isOpen == old(isOpen)
    {
      messages := messages + [Message(pending[0].id, pending[0].text, true)];
      pending := pending[1..];
      isTyping := false;
    }
  }
}
