/**
 * The relay: what the bot does with one incoming message (the handler passed
 * to `teloxide::repl` in `start_bot`, src/main.rs). The decision is specified by
 * the function `Decide` on a snapshot of the state; `Bot.Handle` carries it out
 * step by step on the two stores and the table of last accepted dates, and
 * returns the replies and sends it emits instead of performing them.
 */
module Relay {
  import opened Wrappers
  import opened Text
  import opened IdsSet
  import opened SimpleStorage

  // ---------------------------------------------------------------------------
  // Configuration, messages and actions

  /** `BotSpamControlConfig`. */
  datatype SpamControl = SpamControl(delay: int, delayedMessage: string)

  /** `BotConfig`: the reply texts, the activation code and the optional spam control. */
  datatype Config = Config(
    token: string,
    startMessage: string,
    commandNotAllowed: string,
    addIgnore: string,
    removeIgnore: string,
    errorIgnore: string,
    addListener: string,
    removeListener: string,
    errorListener: string,
    proxyActivateCode: string,
    messageNotTextError: Option<string>,
    answerAfterMessage: Option<string>,
    answerAfterMessageIgnored: Option<string>,
    spamControl: Option<SpamControl>)

  /** The sender's profile as the transport reports it. */
  datatype User = User(id: int, firstName: string, lastName: Option<string>, username: Option<string>)

  /** An incoming message: its chat, its date, its text if it has one, and its sender if known. */
  datatype Message = Message(chatId: Int64, date: int, text: Option<string>, from: Option<User>)

  /** What the handler emits: a reply to the incoming message, or a message sent to a chat. */
  datatype Action = Reply(text: string) | Send(target: Int64, text: string)

  /** The text of a message, classified by its prefix; the prefixes are checked in this order. */
  datatype Command = Start | Ignore(arg: string) | Listening(arg: string) | Plain

  function Classify(text: string): (c: Command)
    ensures c == Start <==> exists rest :: text == "/start" + rest
    ensures c.Ignore? ==> text == "/ignore" + c.arg
    ensures c.Listening? ==> text == "/listening" + c.arg
    ensures c == Plain ==> forall rest :: text != "/start" + rest && text != "/ignore" + rest && text != "/listening" + rest
  {
    if StripPrefix(text, "/start").Some? then
      assert text == "/start" + StripPrefix(text, "/start").value;
      Start
    else if StripPrefix(text, "/ignore").Some? then Ignore(StripPrefix(text, "/ignore").value)
    else if StripPrefix(text, "/listening").Some? then Listening(StripPrefix(text, "/listening").value)
    else Plain
  }

  /**
   * The text forwarded to listeners: the sender's first name, last name (or
   * "-"), username (or numeric id) and chat id, or only the chat id when the
   * sender is unknown, then a blank line and the original text.
   */
  function ForwardText(m: Message, text: string): string {
    match m.from
    case Some(user) =>
      user.firstName + " " + user.lastName.GetOr("-") + " ("
      + (match user.username case Some(name) => name case None => ShowInt(user.id))
      + ") (Chat ID: " + ShowInt(m.chatId) + ")\n\n" + text
    case None =>
      "(Chat ID: " + ShowInt(m.chatId) + ")\n\n" + text
  }

  /** Every forwarded text ends with the sender's chat id, a blank line and the original text. */
  lemma ForwardTextEnds(m: Message, text: string)
    ensures var tail := "(Chat ID: " + ShowInt(m.chatId) + ")\n\n" + text;
      var r := ForwardText(m, text);
      |tail| <= |r| && r[|r| - |tail|..] == tail
  {
  }

  /** One send of `text` to each chat of `order`, in that order. */
  function SendAll(order: seq<Int64>, text: string): (r: seq<Action>)
    ensures |r| == |order|
  {
    seq(|order|, k requires 0 <= k < |order| => Send(order[k], text))
  }

  /** The reply, if there is one, as a list of actions. */
  function Replies(reply: Option<string>): seq<Action> {
    match reply
    case Some(text) => [Reply(text)]
    case None => []
  }

  /** How many of `actions` are sends to `target`. */
  function SendsTo(actions: seq<Action>, target: Int64): nat {
    if actions == [] then 0
    else (if actions[0].Send? && actions[0].target == target then 1 else 0) + SendsTo(actions[1..], target)
  }

  lemma {:induction false} SendsToAppend(a: seq<Action>, b: seq<Action>, target: Int64)
    ensures SendsTo(a + b, target) == SendsTo(a, target) + SendsTo(b, target)
  {
    if a == [] {
      assert a + b == b;
    } else {
      assert (a + b)[0] == a[0];
      assert (a + b)[1..] == a[1..] + b;
      SendsToAppend(a[1..], b, target);
    }
  }

  /** Sending along an order without repetitions reaches each chat of the order once and no other chat. */
  lemma {:induction false} SendAllOnce(order: seq<Int64>, text: string, target: Int64)
    requires NoDuplicates(order)
    ensures SendsTo(SendAll(order, text), target) == if target in order then 1 else 0
  {
    if order != [] {
      assert SendAll(order, text)[1..] == SendAll(order[1..], text);
      SendAllOnce(order[1..], text, target);
      assert order == [order[0]] + order[1..];
      if target == order[0] {
        assert target !in order[1..];
      }
    }
  }

  /**
   * The actions of one message reach every chat in `forward` exactly once and
   * no other chat, and every send carries `text`.
   */
  lemma DeliveredOnce(order: seq<Int64>, forward: set<Int64>, text: string, reply: Option<string>)
    requires Enumerates(order, forward)
    ensures var actions := SendAll(order, text) + Replies(reply);
      && (forall t :: SendsTo(actions, t) == if t in forward then 1 else 0)
      && (forall a :: a in actions && a.Send? ==> a.text == text)
  {
    var actions := SendAll(order, text) + Replies(reply);
    forall t
      ensures SendsTo(actions, t) == if t in forward then 1 else 0
    {
      SendsToAppend(SendAll(order, text), Replies(reply), t);
      SendAllOnce(order, text, t);
      assert SendsTo(Replies(reply), t) == 0;
    }
  }

  // ---------------------------------------------------------------------------
  // The decision

  /** What the handler can observe of the state when a message arrives. */
  datatype Snapshot = Snapshot(
    listening: set<Int64>, listeningPoisoned: bool,
    ignored: set<Int64>, ignoredPoisoned: bool,
    dates: map<Int64, int>, datesPoisoned: bool)

  /**
   * What the handler does with a message: the chats the text is forwarded to
   * and the forwarded text, the reply, the two sets afterwards, which stores are
   * saved to their files, and whether the message's date is recorded.
   */
  datatype Plan = Plan(
    forward: set<Int64>, forwardText: string, reply: Option<string>,
    listening: set<Int64>, ignored: set<Int64>,
    saveListening: bool, saveIgnored: bool, recordDate: bool)

  /** The last accepted date of the chat; a poisoned lock reads as no date. */
  function LastDate(s: Snapshot, chat: Int64): Option<int> {
    if !s.datesPoisoned && chat in s.dates then Some(s.dates[chat]) else None
  }

  /** The spam gate: spam control is on and the chat's last accepted date plus the delay is not before this date. */
  predicate Throttled(cfg: Config, s: Snapshot, m: Message) {
    && cfg.spamControl.Some?
    && LastDate(s, m.chatId).Some?
    && LastDate(s, m.chatId).value + cfg.spamControl.value.delay >= m.date
  }

  /** Membership as the handler reads it; a poisoned lock reads as not a member. */
  predicate IsListening(s: Snapshot, chat: Int64) {
    !s.listeningPoisoned && chat in s.listening
  }

  predicate IsIgnored(s: Snapshot, chat: Int64) {
    !s.ignoredPoisoned && chat in s.ignored
  }

  /** A plan that forwards nothing, changes no set and saves no store. */
  function Quiet(s: Snapshot, reply: Option<string>, recordDate: bool): Plan {
    Plan({}, "", reply, s.listening, s.ignored, false, false, recordDate)
  }

  /**
   * `/ignore <arg>` from a listener: toggle the trimmed argument's id in the
   * ignored set, or reply with the error text when it does not parse or the set
   * is locked out. The ignored store is saved in every case.
   */
  function IgnoreCommand(cfg: Config, s: Snapshot, arg: string): Plan {
    var (ignored, answer) :=
      match ParseI64(Trim(arg))
      case None => (s.ignored, cfg.errorIgnore)
      case Some(id) =>
        if s.ignoredPoisoned then (s.ignored, cfg.errorIgnore)
        else if id in s.ignored then (Toggled(s.ignored, id), cfg.removeIgnore)
        else (Toggled(s.ignored, id), cfg.addIgnore);
    Plan({}, "", Some(answer), s.listening, ignored, false, true, false)
  }

  /**
   * `/listening <code>` with the right code: toggle the sender in the listeners
   * set and save that store. Removal replies `add_listener` and insertion
   * replies `remove_listener`, as the source does.
   */
  function ListeningCommand(cfg: Config, s: Snapshot, chat: Int64): Plan {
    var (listening, answer) :=
      if s.listeningPoisoned then (s.listening, cfg.errorListener)
      else if chat in s.listening then (Toggled(s.listening, chat), cfg.addListener)
      else (Toggled(s.listening, chat), cfg.removeListener);
    Plan({}, "", Some(answer), listening, s.ignored, true, false, false)
  }

  /**
   * Ordinary text: from an ignored sender only the optional ignored-sender
   * reply; otherwise a forward to every listener but the sender (nobody when the
   * listeners lock is poisoned) and the optional after-message reply. The date
   * is recorded either way.
   */
  function PlainText(cfg: Config, m: Message, s: Snapshot, text: string): Plan {
    if IsIgnored(s, m.chatId) then Quiet(s, cfg.answerAfterMessageIgnored, true)
    else
      var forward := if s.listeningPoisoned then {} else s.listening - {m.chatId};
      Plan(forward, ForwardText(m, text), cfg.answerAfterMessage, s.listening, s.ignored, false, false, true)
  }

  /** The decision for a text message that passed the spam gate. */
  function DecideText(cfg: Config, m: Message, s: Snapshot, text: string): Plan {
    match Classify(text)
    case Start => Quiet(s, Some(cfg.startMessage), false)
    case Ignore(arg) =>
      if IsListening(s, m.chatId) then IgnoreCommand(cfg, s, arg)
      else Quiet(s, Some(cfg.commandNotAllowed), true)
    case Listening(arg) =>
      if Trim(arg) == cfg.proxyActivateCode then ListeningCommand(cfg, s, m.chatId)
      else Quiet(s, Some(cfg.commandNotAllowed), true)
    case Plain => PlainText(cfg, m, s, text)
  }

  /** The decision for one message. */
  function Decide(cfg: Config, m: Message, s: Snapshot): Plan {
    if Throttled(cfg, s, m) then Quiet(s, Some(cfg.spamControl.value.delayedMessage), false)
    else
      match m.text
      case None => Quiet(s, cfg.messageNotTextError, true)
      case Some(text) => DecideText(cfg, m, s, text)
  }

  // ---------------------------------------------------------------------------
  // Properties of the decision

  /** A throttled message gets only the delayed-message reply: nothing is forwarded, changed, saved or recorded. */
  lemma SpamGate(cfg: Config, m: Message, s: Snapshot)
    requires Throttled(cfg, s, m)
    ensures var p := Decide(cfg, m, s);
      && p.reply == Some(cfg.spamControl.value.delayedMessage) && p.forward == {}
      && p.listening == s.listening && p.ignored == s.ignored
      && !p.saveListening && !p.saveIgnored && !p.recordDate
  {
  }

  /**
   * The window is inclusive: with a last accepted date `t` and delay `d`, a message
   * dated `t + d` is throttled and one dated `t + d + 1` is not; a chat with no
   * recorded date is never throttled.
   */
  lemma ThrottleBoundary(cfg: Config, s: Snapshot, m: Message)
    requires cfg.spamControl.Some? && !s.datesPoisoned
    ensures m.chatId !in s.dates ==> !Throttled(cfg, s, m)
    ensures m.chatId in s.dates && m.date == s.dates[m.chatId] + cfg.spamControl.value.delay ==> Throttled(cfg, s, m)
    ensures m.chatId in s.dates && m.date == s.dates[m.chatId] + cfg.spamControl.value.delay + 1 ==> !Throttled(cfg, s, m)
  {
  }

  /** The date is recorded exactly for a non-listener's `/ignore`, a wrong-code `/listening`, ordinary text and non-text messages. */
  lemma DateRecorded(cfg: Config, m: Message, s: Snapshot)
    ensures Decide(cfg, m, s).recordDate <==>
      && !Throttled(cfg, s, m)
      && match m.text
         case None => true
         case Some(text) =>
           match Classify(text)
           case Start => false
           case Ignore(_) => !IsListening(s, m.chatId)
           case Listening(arg) => Trim(arg) != cfg.proxyActivateCode
           case Plain => true
  {
  }

  /** `/ignore` from a non-listener is refused, changes nothing and records the date. */
  lemma IgnoreFromNonListener(cfg: Config, m: Message, s: Snapshot, arg: string)
    requires !Throttled(cfg, s, m) && m.text == Some("/ignore" + arg) && !IsListening(s, m.chatId)
    ensures Decide(cfg, m, s) == Quiet(s, Some(cfg.commandNotAllowed), true)
  {
    ClassifyIgnore(arg);
  }

  /**
   * `/ignore` from a listener toggles the parsed id (removing replies
   * `remove_ignore`, inserting replies `add_ignore`), leaves the set as it was
   * with `error_ignore` on a parse error or a poisoned lock, saves the ignored
   * store in every case and records no date.
   */
  lemma IgnoreFromListener(cfg: Config, m: Message, s: Snapshot, arg: string)
    requires !Throttled(cfg, s, m) && m.text == Some("/ignore" + arg) && IsListening(s, m.chatId)
    ensures var p := Decide(cfg, m, s);
      && p.saveIgnored && !p.saveListening && !p.recordDate && p.forward == {}
      && p.listening == s.listening
      && (ParseI64(Trim(arg)).None? || s.ignoredPoisoned ==> p.ignored == s.ignored && p.reply == Some(cfg.errorIgnore))
      && (ParseI64(Trim(arg)).Some? && !s.ignoredPoisoned ==>
            var id := ParseI64(Trim(arg)).value;
            && p.ignored == Toggled(s.ignored, id)
            && p.reply == Some(if id in s.ignored then cfg.removeIgnore else cfg.addIgnore))
  {
    ClassifyIgnore(arg);
  }

  lemma ClassifyIgnore(arg: string)
    ensures Classify("/ignore" + arg) == Ignore(arg)
  {
    var text := "/ignore" + arg;
    assert text[..7] == "/ignore";
    assert text[..6][1] != "/start"[1];
  }

  lemma ClassifyListening(arg: string)
    ensures Classify("/listening" + arg) == Listening(arg)
  {
    var text := "/listening" + arg;
    assert text[..10] == "/listening";
    assert text[..6][1] != "/start"[1];
    assert text[..7][1] != "/ignore"[1];
  }

  /**
   * `/listening` with the activation code toggles the sender's own membership
   * and saves the listeners store without recording the date (a poisoned lock
   * replies `error_listener` instead and changes nothing); any other argument
   * is refused and records the date.
   */
  lemma ListeningCommandEffect(cfg: Config, m: Message, s: Snapshot, arg: string)
    requires !Throttled(cfg, s, m) && m.text == Some("/listening" + arg)
    ensures var p := Decide(cfg, m, s);
      && p.forward == {} && p.ignored == s.ignored && !p.saveIgnored
      && (Trim(arg) == cfg.proxyActivateCode && !s.listeningPoisoned ==>
            && p.listening == Toggled(s.listening, m.chatId) && p.saveListening && !p.recordDate
            && p.reply == Some(if m.chatId in s.listening then cfg.addListener else cfg.removeListener))
      && (Trim(arg) == cfg.proxyActivateCode && s.listeningPoisoned ==>
            && p.listening == s.listening && p.saveListening && !p.recordDate
            && p.reply == Some(cfg.errorListener))
      && (Trim(arg) != cfg.proxyActivateCode ==> p == Quiet(s, Some(cfg.commandNotAllowed), true))
  {
    var text := "/listening" + arg;
    ClassifyListening(arg);
    assert Decide(cfg, m, s) == DecideText(cfg, m, s, text);
    if Trim(arg) == cfg.proxyActivateCode {
      assert Decide(cfg, m, s) == ListeningCommand(cfg, s, m.chatId);
      if s.listeningPoisoned {
        assert ListeningCommand(cfg, s, m.chatId)
          == Plan({}, "", Some(cfg.errorListener), s.listening, s.ignored, true, false, false);
      } else if m.chatId in s.listening {
        assert ListeningCommand(cfg, s, m.chatId)
          == Plan({}, "", Some(cfg.addListener), Toggled(s.listening, m.chatId), s.ignored, true, false, false);
      } else {
        assert ListeningCommand(cfg, s, m.chatId)
          == Plan({}, "", Some(cfg.removeListener), Toggled(s.listening, m.chatId), s.ignored, true, false, false);
      }
    } else {
      assert Decide(cfg, m, s) == Quiet(s, Some(cfg.commandNotAllowed), true);
    }
  }

  /**
   * Sending the activation command twice makes a non-listener a listener (reply
   * `remove_listener`) and then removes them again (reply `add_listener`).
   */
  lemma ListeningTwice(cfg: Config, m1: Message, m2: Message, s: Snapshot, arg: string)
    requires m1.chatId == m2.chatId && m1.text == m2.text == Some("/listening" + arg)
    requires Trim(arg) == cfg.proxyActivateCode && !s.listeningPoisoned && m1.chatId !in s.listening
    requires !Throttled(cfg, s, m1)
    ensures var p1 := Decide(cfg, m1, s);
      var s1 := s.(listening := p1.listening);
      var p2 := Decide(cfg, m2, s1);
      && m1.chatId in p1.listening && p1.reply == Some(cfg.removeListener)
      && (!Throttled(cfg, s1, m2) ==> p2.listening == s.listening && p2.reply == Some(cfg.addListener))
  {
    ClassifyListening(arg);
    ToggleTwice(s.listening, m1.chatId);
  }

  /** An ignored sender's messages are never forwarded, whoever listens. */
  lemma IgnoredNeverForwarded(cfg: Config, m: Message, s: Snapshot)
    requires IsIgnored(s, m.chatId)
    ensures Decide(cfg, m, s).forward == {}
  {
  }

  /** No sender ever receives a forwarded copy of their own message. */
  lemma NoSelfForward(cfg: Config, m: Message, s: Snapshot)
    ensures m.chatId !in Decide(cfg, m, s).forward
  {
  }

  /**
   * Ordinary text from a sender that is not ignored goes to every listener but
   * the sender, as the forwarded text, and records the date.
   */
  lemma PlainForwarded(cfg: Config, m: Message, s: Snapshot, text: string)
    requires !Throttled(cfg, s, m) && m.text == Some(text) && Classify(text) == Plain
    requires !IsIgnored(s, m.chatId) && !s.listeningPoisoned
    ensures var p := Decide(cfg, m, s);
      && p.forward == s.listening - {m.chatId} && p.forwardText == ForwardText(m, text)
      && p.reply == cfg.answerAfterMessage && p.recordDate
      && p.listening == s.listening && p.ignored == s.ignored && !p.saveListening && !p.saveIgnored
  {
  }

  /**
   * Listeners {100}, nobody ignored, no spam control: "hello" from chat 200 is
   * forwarded to 100 only, ending with the sender's chat id and the text.
   */
  lemma HelloScenario(cfg: Config, m: Message)
    requires cfg.spamControl.None? && m.chatId == 200 && m.text == Some("hello")
    ensures var p := Decide(cfg, m, Snapshot({100}, false, {}, false, map[], false));
      && p.forward == {100}
      && p.forwardText == ForwardText(m, "hello")
      && p.recordDate
  {
    assert StripPrefix("hello", "/start").None?;
    assert Classify("hello") == Plain;
  }

  // ---------------------------------------------------------------------------
  // The imperative handler

  /**
   * The broadcast loop: walk the listener snapshot in its iteration order,
   * skip the sender, and send the forwarded text to everyone else.
   */
  method Broadcast(listeners: set<Int64>, m: Message, text: string) returns (sends: seq<Action>)
    ensures exists order :: Enumerates(order, listeners - {m.chatId}) && sends == SendAll(order, ForwardText(m, text))
  {
    sends := [];
    var rest := listeners;
    ghost var done: seq<Int64> := [];
    while rest != {}
      invariant rest <= listeners
      invariant NoDuplicates(done)
      invariant forall x :: x in done <==> x in listeners - {m.chatId} && x !in rest
      invariant sends == SendAll(done, ForwardText(m, text))
      decreases rest
    {
      var listener :| listener in rest;
      rest := rest - {listener};
      if listener == m.chatId {
        continue;
      }
      var msg := ForwardText(m, text);
      assert SendAll(done + [listener], msg) == SendAll(done, msg) + [Send(listener, msg)];
      sends := sends + [Send(listener, msg)];
      done := done + [listener];
    }
    assert Enumerates(done, listeners - {m.chatId});
  }

  /** The bot's state: the listeners store, the ignored store and the last accepted date of each chat. */
  class Bot {
    const listening: Storage
    const ignored: Storage
    var dates: map<Int64, int>
    var datesPoisoned: bool

    ghost predicate Valid()
      reads this
    {
      listening != ignored
    }

    ghost function Snap(): Snapshot
      reads this, listening, ignored
    {
      Snapshot(listening.mem, listening.memPoisoned, ignored.mem, ignored.memPoisoned, dates, datesPoisoned)
    }

    /**
     * `start_bot`'s set-up: load both stores from their files, ignoring the
     * outcome, and start with no recorded dates.
     */
    constructor (listening: Storage, ignored: Storage, listeningIo: ReadIo, ignoredIo: ReadIo)
      requires listening != ignored
      modifies listening`mem, ignored`mem
      ensures Valid() && this.listening == listening && this.ignored == ignored
      ensures dates == map[] && !datesPoisoned
      ensures listening.mem ==
        if !listening.filePoisoned && listeningIo == ReadOk && !listening.memPoisoned
        then Decoded(listening.file) else old(listening.mem)
      ensures ignored.mem ==
        if !ignored.filePoisoned && ignoredIo == ReadOk && !ignored.memPoisoned
        then Decoded(ignored.file) else old(ignored.mem)
    {
      this.listening := listening;
      this.ignored := ignored;
      dates := map[];
      datesPoisoned := false;
      new;
      var loadedListening := listening.SyncMemFromFile(listeningIo);
      var loadedIgnored := ignored.SyncMemFromFile(ignoredIo);
    }

    /** `claim_message_date`: record the message's date for its chat, unless the lock is poisoned. */
    method ClaimMessageDate(chat: Int64, date: int)
      modifies this`dates
      ensures dates == if datesPoisoned then old(dates) else old(dates)[chat := date]
    {
      if !datesPoisoned {
        dates := dates[chat := date];
      }
    }

    /**
     * The effects of carrying out plan `p` for message `m`: the sets are the
     * plan's, the message's date is recorded if the plan says so (unless that
     * lock is poisoned), the stores the plan saves are saved and the others'
     * files are untouched, and the actions are one send of the forwarded text to
     * each chat of `p.forward`, in some order, followed by the reply.
     */
    twostate predicate Carried(p: Plan, m: Message, io: WriteIo, actions: seq<Action>)
      reads this, listening, ignored
    {
      && listening.mem == p.listening
      && ignored.mem == p.ignored
      && dates == (if p.recordDate && !datesPoisoned then old(dates)[m.chatId := m.date] else old(dates))
      && (if p.saveListening
          then Saved(old(listening.file), listening.file, listening.mem, listening.memPoisoned, listening.filePoisoned, io)
          else listening.file == old(listening.file))
      && (if p.saveIgnored
          then Saved(old(ignored.file), ignored.file, ignored.mem, ignored.memPoisoned, ignored.filePoisoned, io)
          else ignored.file == old(ignored.file))
      && (exists order :: Enumerates(order, p.forward) && actions == SendAll(order, p.forwardText) + Replies(p.reply))
    }

    /**
     * Handle one message (the body of the `teloxide::repl` handler): carry out
     * `Decide` on the state as it was. `io` says which I/O call of a store save
     * fails, if any.
     */
    method Handle(cfg: Config, m: Message, io: WriteIo) returns (actions: seq<Action>)
      requires Valid()
      modifies this`dates, listening`mem, listening`file, ignored`mem, ignored`file
      ensures Valid() && Carried(Decide(cfg, m, old(Snap())), m, io, actions)
    {
      ghost var s := Snap();
      assert Enumerates([], {});
      var chat := m.chatId;
      match cfg.spamControl {
        case Some(spamControl) =>
          var lastDate := if datesPoisoned then None else if chat in dates then Some(dates[chat]) else None;
          assert lastDate == LastDate(s, chat);
          match lastDate {
            case Some(last) =>
              if last + spamControl.delay >= m.date {
                actions := [Reply(spamControl.delayedMessage)];
                assert Decide(cfg, m, s) == Quiet(s, Some(spamControl.delayedMessage), false);
                assert actions == SendAll([], "") + Replies(Some(spamControl.delayedMessage));
                return;
              }
            case None =>
          }
        case None =>
      }
      assert !Throttled(cfg, s, m);
      var isListening := match listening.MemStorage() case Some(ids) => chat in ids case None => false;
      var isIgnored := match ignored.MemStorage() case Some(ids) => chat in ids case None => false;
      match m.text {
        case None =>
          actions := Replies(cfg.messageNotTextError);
          assert Decide(cfg, m, s) == Quiet(s, cfg.messageNotTextError, true);
          assert actions == SendAll([], "") + Replies(cfg.messageNotTextError);
          ClaimMessageDate(chat, m.date);
        case Some(text) =>
          assert Decide(cfg, m, s) == DecideText(cfg, m, s, text);
          actions := HandleText(cfg, m, text, isListening, isIgnored, io);
      }
    }

    /** A text message that passed the spam gate, classified by its prefix. */
    method HandleText(cfg: Config, m: Message, text: string, isListening: bool, isIgnored: bool, io: WriteIo)
      returns (actions: seq<Action>)
      requires Valid()
      requires isListening == IsListening(Snap(), m.chatId) && isIgnored == IsIgnored(Snap(), m.chatId)
      modifies this`dates, listening`mem, listening`file, ignored`mem, ignored`file
      ensures Carried(DecideText(cfg, m, old(Snap()), text), m, io, actions)
    {
      ghost var s := Snap();
      if StripPrefix(text, "/start").Some? {
        actions := [Reply(cfg.startMessage)];
        assert Enumerates([], {});
        assert DecideText(cfg, m, s, text) == Quiet(s, Some(cfg.startMessage), false);
        assert actions == SendAll([], "") + Replies(Some(cfg.startMessage));
      } else if StripPrefix(text, "/ignore").Some? {
        var afterIgnore := StripPrefix(text, "/ignore").value;
        assert Classify(text) == Ignore(afterIgnore);
        actions := HandleIgnore(cfg, m, afterIgnore, isListening, io);
      } else if StripPrefix(text, "/listening").Some? {
        var afterListening := StripPrefix(text, "/listening").value;
        assert Classify(text) == Listening(afterListening);
        actions := HandleListening(cfg, m, afterListening, io);
      } else {
        assert Classify(text) == Plain;
        actions := HandlePlain(cfg, m, text, isIgnored);
      }
    }

    /** `/ignore <arg>`: toggle the id for a listener and save the store, or refuse a non-listener. */
    method HandleIgnore(cfg: Config, m: Message, arg: string, isListening: bool, io: WriteIo)
      returns (actions: seq<Action>)
      requires Valid() && isListening == IsListening(Snap(), m.chatId)
      modifies this`dates, ignored`mem, ignored`file
      ensures Carried(
        if isListening then IgnoreCommand(cfg, old(Snap()), arg) else Quiet(old(Snap()), Some(cfg.commandNotAllowed), true),
        m, io, actions)
    {
      assert Enumerates([], {});
      if isListening {
        ghost var p := IgnoreCommand(cfg, Snap(), arg);
        var answer;
        var parsed := ParseI64(Trim(arg));
        match parsed {
          case Some(id) =>
            var seen := ignored.MutableMemStorage(ids => Toggled(ids, id));
            answer := match seen
              case Some(ids) => if id in ids then cfg.removeIgnore else cfg.addIgnore
              case None => cfg.errorIgnore;
          case None =>
            answer := cfg.errorIgnore;
        }
        assert ignored.mem == p.ignored && p.reply == Some(answer);
        var saved := ignored.SyncFileFromMem(io);
        actions := [Reply(answer)];
        assert actions == SendAll([], p.forwardText) + Replies(p.reply);
      } else {
        actions := [Reply(cfg.commandNotAllowed)];
        ClaimMessageDate(m.chatId, m.date);
      }
    }

    /** `/listening <arg>`: with the activation code toggle the sender and save the store, otherwise refuse. */
    method HandleListening(cfg: Config, m: Message, arg: string, io: WriteIo) returns (actions: seq<Action>)
      requires Valid()
      modifies this`dates, listening`mem, listening`file
      ensures Carried(
        if Trim(arg) == cfg.proxyActivateCode then ListeningCommand(cfg, old(Snap()), m.chatId)
        else Quiet(old(Snap()), Some(cfg.commandNotAllowed), true),
        m, io, actions)
    {
      assert Enumerates([], {});
      var chat := m.chatId;
      if Trim(arg) == cfg.proxyActivateCode {
        ghost var p := ListeningCommand(cfg, Snap(), chat);
        var seen := listening.MutableMemStorage(ids => Toggled(ids, chat));
        var answer := match seen
          case Some(ids) => if chat in ids then cfg.addListener else cfg.removeListener
          case None => cfg.errorListener;
        assert listening.mem == p.listening && p.reply == Some(answer);
        var saved := listening.SyncFileFromMem(io);
        actions := [Reply(answer)];
        assert actions == SendAll([], p.forwardText) + Replies(p.reply);
      } else {
        actions := [Reply(cfg.commandNotAllowed)];
        ClaimMessageDate(chat, m.date);
      }
    }

    /** Ordinary text: forward it to every other listener unless the sender is ignored, then reply and record the date. */
    method HandlePlain(cfg: Config, m: Message, text: string, isIgnored: bool) returns (actions: seq<Action>)
      requires Valid() && isIgnored == IsIgnored(Snap(), m.chatId)
      modifies this`dates
      ensures Carried(PlainText(cfg, m, old(Snap()), text), m, WriteOk, actions)
    {
      assert Enumerates([], {});
      if !isIgnored {
        actions := [];
        ghost var order: seq<Int64> := [];
        match listening.MemStorage() {
          case Some(listeners) =>
            actions := Broadcast(listeners, m, text);
            order :| Enumerates(order, listeners - {m.chatId}) && actions == SendAll(order, ForwardText(m, text));
          case None =>
        }
        actions := actions + Replies(cfg.answerAfterMessage);
        assert actions == SendAll(order, ForwardText(m, text)) + Replies(cfg.answerAfterMessage);
        ClaimMessageDate(m.chatId, m.date);
      } else {
        actions := Replies(cfg.answerAfterMessageIgnored);
        ClaimMessageDate(m.chatId, m.date);
      }
    }
  }
}
