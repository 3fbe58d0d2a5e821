/**
 * The legacy bot of MuziatikBot.py: module globals (`is_`, `who`,
 * `what_remind`, `when_remind`, `guest`, `who_will_go_house`) changed by
 * the handlers, the order in which the dispatcher tries the text handlers,
 * and the fixed-position parse of a reminder time written `дд.мм ЧЧ:ММ`.
 */
module LegacyBot {
  import opened PyText

  /** `is_`: None, 'feedback' or 'reminder'. */
  datatype Mode = NoMode | FeedbackMode | ReminderMode

  /** The reminder time `just_text` stores in `when_remind`. */
  datatype When = When(month: int, day: int, hour: int, minute: int)

  datatype LegacyState = LegacyState(
    mode: Mode,
    who: Option<string>,
    whatRemind: Option<string>,
    whenRemind: Option<When>,
    guest: bool,
    whoWillGoHouse: Option<int>)

  /** The globals as the module leaves them at import. */
  const InitialState: LegacyState := LegacyState(NoMode, None, None, None, false, None)

  /** What the handler answers (only the data it depends on is kept). */
  datatype LegacyReply =
    | Greeting                                 // process_start_command
    | NameInfo                                 // my_name
    | CatPhoto                                 // cats
    | HouseQuestion                            // home
    | House(enter: bool)                       // go_house: enter or leave the house
    | FeedbackPrompt                           // feedback
    | WhomToRemind                             // reminder
    | WhatToRemind                             // what
    | FeedbackForwarded(text: Option<string>)  // just_text in feedback mode
    | AskWhen                                  // 'Когда?' and the format hint
    | ReminderSet(what: Option<string>, at: string)  // 'Напоминание — {what_remind}, на {text} зарегистрировано!'
    | NoSuchCommand                            // error()
    | Raised                                   // the handler stopped with an exception

  datatype Handled = Handled(state: LegacyState, reply: LegacyReply)

  // ------------------------------------------------------------- handlers

  /** home (MuziatikBot.py:128-135): remember who asked to enter or leave. */
  function HomeStep(s: LegacyState, chatId: int): Handled {
    Handled(s.(whoWillGoHouse := Some(chatId)), HouseQuestion)
  }

  /**
   * go_house (MuziatikBot.py:158-194): flip `guest`, then tell the requester
   * to enter or leave according to the new value. Sending to an unset
   * `who_will_go_house` raises after the flip.
   */
  function GoHouseStep(s: LegacyState): Handled {
    var g := !s.guest;
    if s.whoWillGoHouse.None? then Handled(s.(guest := g), Raised)
    else Handled(s.(guest := g), House(g))
  }

  /** feedback (MuziatikBot.py:197-207). */
  function FeedbackStep(s: LegacyState): Handled {
    Handled(s.(mode := FeedbackMode), FeedbackPrompt)
  }

  const ForDima: string := "Для Димы"
  const ForAlyona: string := "Для Алёны"
  const ForCoDeveloper: string := "Для CoРазработчика"
  const ForNatasha: string := "Для Наташи"

  /** `os.getenv(key)`. */
  function GetEnv(env: map<string, string>, key: string): Option<string> {
    if key in env then Some(env[key]) else None
  }

  /** what (MuziatikBot.py:223-243): reminder mode, and the recipient chosen by the button. */
  function WhatStep(s: LegacyState, button: string, env: map<string, string>): Handled {
    var who :=
      if button == ForDima then GetEnv(env, "MY_CHAT_ID")
      else if button == ForAlyona then GetEnv(env, "MOMMY_CHAT_ID")
      else if button == ForCoDeveloper then GetEnv(env, "DADDY_CHAT_ID")
      else if button == ForNatasha then GetEnv(env, "GRANNY_CHAT_ID")
      else s.who;
    Handled(s.(mode := ReminderMode, who := who), WhatToRemind)
  }

  /**
   * The parse of just_text's digit branch (MuziatikBot.py:290-299):
   * month = int(text[4]), day = int(text[:2]), hour = int(text[-5:-3]),
   * minute = int(text[-2:]); `None` when indexing or an `int()` raises.
   */
  function ParseWhen(text: string): Option<When> {
    if |text| <= 4 then None
    else
      var month := PyInt([text[4]]);
      var day := PyInt(PySlice(text, 0, Some(2)));
      var hour := PyInt(PySlice(text, -5, Some(-3)));
      var minute := PyInt(PySlice(text, -2, None));
      if month.Some? && day.Some? && hour.Some? && minute.Some? then
        Some(When(month.value, day.value, hour.value, minute.value))
      else None
  }

  /**
   * just_text (MuziatikBot.py:250-312). Outside feedback mode the first
   * character is read, so a message without text (or an empty one) raises.
   */
  function JustTextStep(s: LegacyState, text: Option<string>): Handled {
    if s.mode == FeedbackMode then Handled(s, FeedbackForwarded(text))
    else if text.None? || text.value == "" then Handled(s, Raised)
    else
      var t := text.value;
      if s.mode == ReminderMode && !IsDigit(t[0]) then Handled(s.(whatRemind := Some(t)), AskWhen)
      else if IsDigit(t[0]) then
        match ParseWhen(t)
        case None => Handled(s, Raised)
        case Some(w) => Handled(s.(whenRemind := Some(w)), ReminderSet(s.whatRemind, t))
      else Handled(s, NoSuchCommand)
  }

  // --------------------------------------------------------------- routing

  /** The message handlers in registration order. */
  datatype Handler = StartH | MyNameH | CatsH | HomeH | GoHouseH | FeedbackH | ReminderH | JustTextH

  /** `F.text.regexp(r'[дД][Аа]')`: aiogram's regexp filter matches at the start of the text. */
  predicate StartsWithYes(s: string) {
    |s| >= 2 && (s[0] == 'д' || s[0] == 'Д') && (s[1] == 'А' || s[1] == 'а')
  }

  /**
   * The first registered handler whose filter accepts the message
   * (MuziatikBot.py:106-250); `isStart` is whether the `Command("start")`
   * filter accepted it.
   */
  function Route(text: Option<string>, isStart: bool): Handler {
    if isStart then StartH
    else match text
      case None => JustTextH
      case Some(s) =>
        if s == "Как меня зовут?" then MyNameH
        else if s == "Котики!" then CatsH
        else if s == "Домик" then HomeH
        else if StartsWithYes(s) then GoHouseH
        else if s == "Отзыв" then FeedbackH
        else if s == "Поставь напоминание" then ReminderH
        else JustTextH
  }

  /** One text message from chat `chatId`, run by the handler the dispatcher picks. */
  function HandleText(s: LegacyState, text: Option<string>, isStart: bool, chatId: int): Handled {
    match Route(text, isStart)
    case StartH => Handled(s, Greeting)
    case MyNameH => Handled(s, NameInfo)
    case CatsH => Handled(s, CatPhoto)
    case HomeH => HomeStep(s, chatId)
    case GoHouseH => GoHouseStep(s)
    case FeedbackH => FeedbackStep(s)
    case ReminderH => Handled(s, WhomToRemind)
    case JustTextH => JustTextStep(s, text)
  }

  /** The replies and final state of a run of messages that all reach just_text. */
  datatype Run = Run(state: LegacyState, replies: seq<LegacyReply>)

  function JustTextRun(s: LegacyState, texts: seq<Option<string>>): Run
    decreases |texts|
  {
    if texts == [] then Run(s, [])
    else
      var h := JustTextStep(s, texts[0]);
      var rest := JustTextRun(h.state, texts[1..]);
      Run(rest.state, [h.reply] + rest.replies)
  }

  // ------------------------------------------------------ what they promise

  /** home records the requester's chat and nothing else. */
  lemma HomeRecordsRequester(s: LegacyState, chatId: int)
    ensures HomeStep(s, chatId).state.whoWillGoHouse == Some(chatId)
    ensures HomeStep(s, chatId).state.(whoWillGoHouse := s.whoWillGoHouse) == s
  {
  }

  /** Each go_house flips `guest` and announces entering exactly when the new value is true. */
  lemma GoHouseToggles(s: LegacyState)
    requires s.whoWillGoHouse.Some?
    ensures GoHouseStep(s).state.guest == !s.guest
    ensures GoHouseStep(s).reply == House(!s.guest)
    ensures GoHouseStep(GoHouseStep(s).state).state == s
    ensures GoHouseStep(GoHouseStep(s).state).reply == House(s.guest)
  {
  }

  /**
   * In feedback mode every text that reaches `just_text` is forwarded, and
   * `just_text` never leaves the mode. Texts taken by an earlier handler are
   * not forwarded, and `what` can still switch to reminder mode.
   */
  lemma {:induction false} FeedbackIsSticky(s: LegacyState, texts: seq<Option<string>>)
    requires s.mode == FeedbackMode
    ensures JustTextRun(s, texts).state == s
    ensures |JustTextRun(s, texts).replies| == |texts|
    ensures forall i :: 0 <= i < |texts| ==> JustTextRun(s, texts).replies[i] == FeedbackForwarded(texts[i])
  {
    if texts != [] {
      FeedbackIsSticky(s, texts[1..]);
      var rest := JustTextRun(s, texts[1..]);
      assert JustTextRun(s, texts).replies == [FeedbackForwarded(texts[0])] + rest.replies;
      forall i | 0 < i < |texts|
        ensures JustTextRun(s, texts).replies[i] == FeedbackForwarded(texts[i])
      {
        assert texts[1..][i - 1] == texts[i];
      }
    }
  }

  /**
   * Handler order: a "Да…" text is taken by go_house before just_text, so
   * even in feedback mode it is not forwarded; it flips `guest` instead.
   */
  lemma YesIsNeverForwarded(s: LegacyState, t: string, chatId: int)
    requires StartsWithYes(t)
    ensures var h := HandleText(s, Some(t), false, chatId);
      && !h.reply.FeedbackForwarded?
      && h.state == s.(guest := !s.guest)
  {
    assert t != "Как меня зовут?" && t != "Котики!" && t != "Домик" by {
      assert "Как меня зовут?"[1] == 'а' && "Котики!"[1] == 'о' && "Домик"[1] == 'о';
      assert "Как меня зовут?"[0] == 'К' && "Котики!"[0] == 'К';
    }
  }

  /** Other texts reach just_text unless they are one of the button texts. */
  lemma OtherTextsReachJustText(t: string)
    requires !StartsWithYes(t)
    requires t !in ["Как меня зовут?", "Котики!", "Домик", "Отзыв", "Поставь напоминание"]
    ensures Route(Some(t), false) == JustTextH
    ensures Route(None, false) == JustTextH
  {
  }

  /** what always enters reminder mode and reads the chosen recipient from the environment. */
  lemma WhatPicksRecipient(s: LegacyState, button: string, env: map<string, string>)
    ensures WhatStep(s, button, env).state.mode == ReminderMode
    ensures button == ForDima ==> WhatStep(s, button, env).state.who == GetEnv(env, "MY_CHAT_ID")
    ensures button == ForAlyona ==> WhatStep(s, button, env).state.who == GetEnv(env, "MOMMY_CHAT_ID")
    ensures button == ForCoDeveloper ==> WhatStep(s, button, env).state.who == GetEnv(env, "DADDY_CHAT_ID")
    ensures button == ForNatasha ==> WhatStep(s, button, env).state.who == GetEnv(env, "GRANNY_CHAT_ID")
    ensures WhatStep(s, button, env).state.(mode := s.mode, who := s.who) == s
  {
  }

  /** In reminder mode a text not starting with a digit becomes the reminder's subject. */
  lemma ReminderStoresSubject(s: LegacyState, t: string)
    requires s.mode == ReminderMode && t != "" && !IsDigit(t[0])
    ensures JustTextStep(s, Some(t)) == Handled(s.(whatRemind := Some(t)), AskWhen)
  {
  }

  /** Outside feedback mode a digit-first text is parsed as a time; a failed parse raises and changes nothing. */
  lemma DigitTextSetsTime(s: LegacyState, t: string)
    requires s.mode != FeedbackMode && t != "" && IsDigit(t[0])
    ensures var h := JustTextStep(s, Some(t));
      && (ParseWhen(t).Some? ==> h == Handled(s.(whenRemind := ParseWhen(t)), ReminderSet(s.whatRemind, t)))
      && (ParseWhen(t).None? ==> h == Handled(s, Raised))
  {
  }

  /** Without a mode, any other text gets the error reply and changes nothing; no text at all raises. */
  lemma OtherTextIsAnError(s: LegacyState, t: string)
    requires s.mode == NoMode && t != "" && !IsDigit(t[0])
    ensures JustTextStep(s, Some(t)) == Handled(s, NoSuchCommand)
    ensures JustTextStep(s, None) == Handled(s, Raised)
  {
  }

  /** `int()` of one character succeeds exactly for an ASCII digit. */
  lemma PyIntOneChar(c: char)
    ensures PyInt([c]).Some? <==> IsDigit(c)
    ensures IsDigit(c) ==> PyInt([c]) == Some(DigitValue(c))
  {
    if IsPySpace(c) {
      assert PyStrip([c]) == [];
    } else {
      assert PyStrip([c]) == [c];
      if IsDigit(c) {
        assert [c][..0] == [];
        assert DecimalValue([c]) == DigitValue(c);
      }
    }
  }

  /**
   * The `дд.мм ЧЧ:ММ` format: day, hour and minute are read correctly, but
   * the month is the single character at index 4, its second digit.
   */
  lemma ParseOfFormat(t: string) returns (w: When)
    requires |t| == 11 && t[2] == '.' && t[5] == ' ' && t[8] == ':'
    requires IsDigit(t[0]) && IsDigit(t[1]) && IsDigit(t[3]) && IsDigit(t[4])
    requires IsDigit(t[6]) && IsDigit(t[7]) && IsDigit(t[9]) && IsDigit(t[10])
    ensures ParseWhen(t) == Some(w)
    ensures w.month == DigitValue(t[4])
    ensures w.day == 10 * DigitValue(t[0]) + DigitValue(t[1])
    ensures w.hour == 10 * DigitValue(t[6]) + DigitValue(t[7])
    ensures w.minute == 10 * DigitValue(t[9]) + DigitValue(t[10])
  {
    var month := MonthPart(t);
    var day := DayPart(t);
    var hour := HourPart(t);
    var minute := MinutePart(t);
    ParseOfParts(t, month, day, hour, minute);
    w := When(month, day, hour, minute);
  }

  lemma ParseOfParts(t: string, month: int, day: int, hour: int, minute: int)
    requires |t| > 4
    requires PyInt([t[4]]) == Some(month)
    requires PyInt(PySlice(t, 0, Some(2))) == Some(day)
    requires PyInt(PySlice(t, -5, Some(-3))) == Some(hour)
    requires PyInt(PySlice(t, -2, None)) == Some(minute)
    ensures ParseWhen(t) == Some(When(month, day, hour, minute))
  {
  }

  lemma MonthPart(t: string) returns (m: int)
    requires |t| >= 5 && IsDigit(t[4])
    ensures PyInt([t[4]]) == Some(m) && m == DigitValue(t[4])
  {
    PyIntOneChar(t[4]);
    m := DigitValue(t[4]);
  }

  lemma DayPart(t: string) returns (d: int)
    requires |t| >= 5 && IsDigit(t[0]) && IsDigit(t[1])
    ensures PyInt(PySlice(t, 0, Some(2))) == Some(d)
    ensures d == 10 * DigitValue(t[0]) + DigitValue(t[1])
  {
    var u := PySlice(t, 0, Some(2));
    assert u == [t[0], t[1]];
    d := PairValue(u);
  }

  lemma HourPart(t: string) returns (h: int)
    requires |t| >= 5 && IsDigit(t[|t| - 5]) && IsDigit(t[|t| - 4])
    ensures PyInt(PySlice(t, -5, Some(-3))) == Some(h)
    ensures h == 10 * DigitValue(t[|t| - 5]) + DigitValue(t[|t| - 4])
  {
    var n := |t|;
    var u := PySlice(t, -5, Some(-3));
    assert u == t[n - 5..n - 3];
    assert u[0] == t[n - 5] && u[1] == t[n - 4];
    h := PairValue(u);
  }

  lemma MinutePart(t: string) returns (m: int)
    requires |t| >= 5 && IsDigit(t[|t| - 2]) && IsDigit(t[|t| - 1])
    ensures PyInt(PySlice(t, -2, None)) == Some(m)
    ensures m == 10 * DigitValue(t[|t| - 2]) + DigitValue(t[|t| - 1])
  {
    var n := |t|;
    var u := PySlice(t, -2, None);
    assert u == t[n - 2..];
    assert u[0] == t[n - 2] && u[1] == t[n - 1];
    m := PairValue(u);
  }

  /** `int()` of two ASCII digits. */
  lemma PairValue(u: string) returns (v: int)
    requires |u| == 2 && IsDigit(u[0]) && IsDigit(u[1])
    ensures PyInt(u) == Some(v)
    ensures v == 10 * DigitValue(u[0]) + DigitValue(u[1])
  {
    PyIntTwoDigits(u);
    v := 10 * DigitValue(u[0]) + DigitValue(u[1]);
  }

  /** The format hint's own example "31.08 23:59" is read as month 8. */
  lemma HintExampleReadAsAugust()
    ensures ParseWhen("31.08 23:59") == Some(When(8, 31, 23, 59))
  {
    var t := "31.08 23:59";
    assert |t| == 11 && t[2] == '.' && t[5] == ' ' && t[8] == ':';
    assert t[0] == '3' && t[1] == '1' && t[3] == '0' && t[4] == '8';
    assert t[6] == '2' && t[7] == '3' && t[9] == '5' && t[10] == '9';
    var w := ParseOfFormat(t);
    assert w.month == 8 && w.day == 31;
    assert w.hour == 23 && w.minute == 59;
  }

  /**
   * A two-digit month loses its first digit: a December time such as
   * "31.12 23:59" is read as month 2.
   */
  lemma DecemberReadAsFebruary()
    ensures ParseWhen("31.12 23:59") == Some(When(2, 31, 23, 59))
  {
    var t := "31.12 23:59";
    assert |t| == 11 && t[2] == '.' && t[5] == ' ' && t[8] == ':';
    assert t[0] == '3' && t[1] == '1' && t[3] == '1' && t[4] == '2';
    assert t[6] == '2' && t[7] == '3' && t[9] == '5' && t[10] == '9';
    var w := ParseOfFormat(t);
    assert w == When(2, 31, 23, 59);
  }

  /** Since the month is one character, a parsed month is always below 10. */
  lemma MonthIsOneDigit(t: string)
    requires ParseWhen(t).Some?
    ensures 0 <= ParseWhen(t).value.month <= 9
  {
    PyIntOneChar(t[4]);
  }

  // ---------------------------------------------------------------- the bot

  /** The module globals of MuziatikBot.py, changed in place by the handlers. */
  class Legacy {
    var mode: Mode
    var who: Option<string>
    var whatRemind: Option<string>
    var whenRemind: Option<When>
    var guest: bool
    var whoWillGoHouse: Option<int>
    /** The process environment read by `os.getenv`. */
    const env: map<string, string>

    function State(): LegacyState
      reads this
    {
      LegacyState(mode, who, whatRemind, whenRemind, guest, whoWillGoHouse)
    }

    constructor (env: map<string, string>)
      ensures State() == InitialState && this.env == env
    {
      this.env := env;
      mode, who, whatRemind, whenRemind, guest, whoWillGoHouse := NoMode, None, None, None, false, None;
    }

    method Home(chatId: int) returns (reply: LegacyReply)
      modifies this
      ensures Handled(State(), reply) == HomeStep(old(State()), chatId)
    {
      whoWillGoHouse := Some(chatId);
      reply := HouseQuestion;
    }

    method GoHouse() returns (reply: LegacyReply)
      modifies this
      ensures Handled(State(), reply) == GoHouseStep(old(State()))
    {
      guest := if !guest then true else false;
      if whoWillGoHouse.None? {
        return Raised;
      }
      reply := House(guest);
    }

    method Feedback() returns (reply: LegacyReply)
      modifies this
      ensures Handled(State(), reply) == FeedbackStep(old(State()))
    {
      mode := FeedbackMode;
      reply := FeedbackPrompt;
    }

    method What(button: string) returns (reply: LegacyReply)
      modifies this
      ensures Handled(State(), reply) == WhatStep(old(State()), button, env)
    {
      mode := ReminderMode;
      if button == ForDima {
        who := GetEnv(env, "MY_CHAT_ID");
      } else if button == ForAlyona {
        who := GetEnv(env, "MOMMY_CHAT_ID");
      } else if button == ForCoDeveloper {
        who := GetEnv(env, "DADDY_CHAT_ID");
      } else if button == ForNatasha {
        who := GetEnv(env, "GRANNY_CHAT_ID");
      }
      reply := WhatToRemind;
    }

    method JustText(text: Option<string>) returns (reply: LegacyReply)
      modifies this
      ensures Handled(State(), reply) == JustTextStep(old(State()), text)
    {
      if mode == FeedbackMode {
        return FeedbackForwarded(text);
      }
      if text.None? || text.value == "" {
        return Raised;
      }
      var t := text.value;
      if mode == ReminderMode && !IsDigit(t[0]) {
        whatRemind := Some(t);
        reply := AskWhen;
      } else if IsDigit(t[0]) {
        var w := ParseWhen(t);
        if w.None? {
          return Raised;
        }
        whenRemind := w;
        reply := ReminderSet(whatRemind, t);
      } else {
        reply := NoSuchCommand;
      }
    }

    /** A text message, handed to the first handler whose filter accepts it. */
    method HandleMessage(text: Option<string>, isStart: bool, chatId: int) returns (reply: LegacyReply)
      modifies this
      ensures Handled(State(), reply) == HandleText(old(State()), text, isStart, chatId)
    {
      var h := Route(text, isStart);
      match h
      case StartH => reply := Greeting;
      case MyNameH => reply := NameInfo;
      case CatsH => reply := CatPhoto;
      case HomeH => reply := Home(chatId);
      case GoHouseH => reply := GoHouse();
      case FeedbackH => reply := Feedback();
      case ReminderH => reply := WhomToRemind;
      case JustTextH => reply := JustText(text);
    }
  }
}
