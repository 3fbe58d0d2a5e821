/**
 * The beta handlers of beta_bot.py that change state: the per-user
 * keyboard-input mode (`keyboard_input`) and the memory/name operations it
 * leads to, the weekly voice-transcription quota kept in the `users` table,
 * and the handling of a successful Stars payment.
 *
 * Each handler is a pure step function from the tables and the mode map to
 * the new tables, the new mode map and the reply it sends; the class
 * `BetaBot` keeps the mode map as a field and runs the handlers against a
 * `Db`, proved to agree with the step functions.
 */
module BetaBot {
  import opened PyText
  import opened RecordStore

  const WeekSeconds: int := 7 * 24 * 60 * 60
  const FreeVoiceLimit: int := 10
  const VoicePayloadPrefix: string := "voice_limit_5_stars:"
  const DonatePayload: string := "donate"

  /** The values `keyboard_input` holds: what the user's next text message means. */
  datatype InputMode = AwaitName | AwaitRemember | AwaitForget | AwaitFeedback

  /** What a handler answers (the wording is fixed by the handler; only the data is kept). */
  datatype Reply =
    | NameAccepted(name: Value)               // 'Хорошо, {name}'
    | TypeName                                // 'Хорошо, пишите'
    | RememberRules                           // 'Пишите. Правила: ...'
    | Listing(lines: seq<string>)             // '\n'.join(recall(uid))
    | NameSet(shown: Recalled)                // 'Запомнил! Теперь вы — {recall(uid, field='name')}'
    | Forwarded(owner: int, text: Option<string>)  // the feedback sent to the owner's chat
    | Remembered(text: Option<string>)        // 'Запомнил!\n{text}'
    | DeletedAll                              // 'Удалил все записи'
    | NoSuchKey                               // 'Такого ключа нет'
    | DeletedKey(key: string)                 // 'Удалил ключ {key} и его значение'
    | UseButtons                              // the hint to use the keyboard
    | Raised                                  // the handler stopped with an exception

  /** The tables, the mode map and the reply after one handler call. */
  datatype Outcome = Outcome(tables: Tables, input: map<int, InputMode>, reply: Reply)

  // ------------------------------------------------------------- set_name

  function NameAnswer(s: Step, input: map<int, InputMode>, name: Value): Outcome {
    Outcome(s.after, input, if s.raised then Raised else NameAccepted(name))
  }

  /**
   * set_name (beta_bot.py:165-177): store the full name or the username
   * (which Telegram may leave unset) as the name, or await a typed name.
   */
  function SetNameStep(t: Tables, input: map<int, InputMode>, uid: int, data: string,
                       fullName: string, username: Option<string>): Outcome {
    if data == "full_name" then
      NameAnswer(RememberStep(t, uid, Text(fullName), Key("name")), input, Text(fullName))
    else if data == "username" then
      NameAnswer(RememberStep(t, uid, TextValue(username), Key("name")), input, TextValue(username))
    else
      Outcome(t, input[uid := AwaitName], TypeName)
  }

  // --------------------------------------------------------------- memory

  /** `'\n'.join(recall(uid))`: joining the `None` of a failed recall raises TypeError. */
  function ListingOf(r: Recalled): Reply {
    match r
    case Lines(items) => Listing(items)
    case _ => Raised
  }

  /** memory (beta_bot.py:180-197): await a text to remember, list the memories, or await an id to forget. */
  function MemoryStep(t: Tables, input: map<int, InputMode>, uid: int, data: string): Outcome {
    if data == "remember" then Outcome(t, input[uid := AwaitRemember], RememberRules)
    else if data == "recall" then Outcome(t, input, ListingOf(RecallOf(t, uid, NoField)))
    else Outcome(t, input[uid := AwaitForget], ListingOf(RecallOf(t, uid, NoField)))
  }

  /** feedback (beta_bot.py:222-226). */
  function FeedbackStep(input: map<int, InputMode>, uid: int): map<int, InputMode> {
    input[uid := AwaitFeedback]
  }

  // ----------------------------------------------------------- everything

  /** The forget branch once the mode is removed and the text is known. */
  function ForgetInput(t: Tables, input: map<int, InputMode>, uid: int, s: string): Outcome {
    if PyLower(s) in ["все", "всё"] then
      Outcome(ForgetStep(t, uid, Null).after, input, DeletedAll)
    else
      match RecallOf(t, uid, Key("id"))
      case Lines(ids) =>
        if s !in ids then Outcome(t, input, NoSuchKey)
        else
          var f := ForgetStep(t, uid, Text(s));
          Outcome(f.after, input, if f.raised then Raised else DeletedKey(s))
      case _ => Outcome(t, input, Raised)
  }

  /**
   * everything (beta_bot.py:446-480): a text message interpreted by the
   * user's mode. `owner` is MY_CHAT_ID, unset when the environment lacks it.
   * In the name mode the text is remembered with `field=True`, which is not
   * a reserved column, so it becomes a memory row and the name stays as it
   * was.
   */
  function EverythingStep(t: Tables, input: map<int, InputMode>, uid: int, text: Option<string>,
                          owner: Option<int>): Outcome {
    if uid !in input then Outcome(t, input, UseButtons)
    else match input[uid]
      case AwaitName =>
        var s := RememberStep(t, uid, TextValue(text), Flag(true));
        if s.raised then Outcome(s.after, input, Raised)
        else Outcome(s.after, input - {uid}, NameSet(RecallOf(s.after, uid, Key("name"))))
      case AwaitFeedback =>
        if owner.None? then Outcome(t, input, Raised)
        else Outcome(t, input - {uid}, Forwarded(owner.value, text))
      case AwaitRemember =>
        var s := RememberStep(t, uid, TextValue(text), NoField);
        if s.raised then Outcome(s.after, input, Raised)
        else Outcome(s.after, input - {uid}, Remembered(text))
      case AwaitForget =>
        if text.None? then Outcome(t, input - {uid}, Raised)
        else ForgetInput(t, input - {uid}, uid, text.value)
  }

  // ------------------------------------------------ keyboard-input lemmas

  /** A message without a pending mode changes nothing and gets the keyboard hint. */
  lemma NoModeNoEffect(t: Tables, input: map<int, InputMode>, uid: int, text: Option<string>, owner: Option<int>)
    requires uid !in input
    ensures EverythingStep(t, input, uid, text, owner) == Outcome(t, input, UseButtons)
  {
  }

  /**
   * A pending mode is used once: unless the handler raised before its `del`,
   * the user's mode is gone; other users' modes are never touched.
   */
  lemma ModeUsedOnce(t: Tables, input: map<int, InputMode>, uid: int, text: Option<string>, owner: Option<int>)
    requires uid in input
    ensures var o := EverythingStep(t, input, uid, text, owner);
      && (o.reply != Raised || input[uid] == AwaitForget ==> o.input == input - {uid})
      && (o.reply == Raised && input[uid] != AwaitForget ==> o.input == input)
      && (forall u :: u != uid ==> (u in o.input <==> u in input) && (u in input ==> o.input[u] == input[u]))
  {
    if input[uid] == AwaitForget && text.Some? {
      ForgetInputKeepsModes(t, input - {uid}, uid, text.value);
    }
  }

  /** The forget branch changes no mode itself: its `del` came before. */
  lemma ForgetInputKeepsModes(t: Tables, input: map<int, InputMode>, uid: int, s: string)
    ensures ForgetInput(t, input, uid, s).input == input
  {
    if !(PyLower(s) in ["все", "всё"]) {
      RecallIds(t, uid, s);
    }
  }

  /** The name text is stored as a memory row (field=True is not reserved); the name column is unchanged. */
  lemma NameModeStoresAMemory(t: Tables, input: map<int, InputMode>, uid: int, text: Option<string>, owner: Option<int>)
    requires ValidTables(t) && t.userSeq <= SmallSerialMax && t.memorySeq <= SmallSerialMax
    requires uid in input && input[uid] == AwaitName
    ensures var o := EverythingStep(t, input, uid, text, owner);
      && o.tables.memory == t.memory + [MemoryRow(t.memorySeq, o.tables.users[uid].id, text)]
      && o.reply == NameSet(RecallOf(t, uid, Key("name")))
      && uid !in o.input
  {
    RememberOtherAppends(t, uid, TextValue(text), Flag(true));
    var a := RememberStep(t, uid, TextValue(text), Flag(true)).after;
    assert AsText(TextValue(text)) == text;
    assert uid in t.users ==> a.users[uid] == t.users[uid];
  }

  /**
   * Feedback mode forwards the next message that reaches `everything` to the
   * owner and clears the mode. Messages taken by an earlier handler (voice,
   * the menu buttons, payments) leave the mode pending.
   */
  lemma FeedbackForwards(t: Tables, input: map<int, InputMode>, uid: int, text: Option<string>, owner: int)
    ensures EverythingStep(t, FeedbackStep(input, uid), uid, text, Some(owner))
         == Outcome(t, input - {uid}, Forwarded(owner, text))
  {
    assert FeedbackStep(input, uid) - {uid} == input - {uid};
  }

  /** Remember mode appends the message text as a new row of the user and clears the mode. */
  lemma RememberModeAppends(t: Tables, input: map<int, InputMode>, uid: int, text: Option<string>, owner: Option<int>)
    requires ValidTables(t) && t.userSeq <= SmallSerialMax && t.memorySeq <= SmallSerialMax
    ensures var m := MemoryStep(t, input, uid, "remember");
      var o := EverythingStep(m.tables, m.input, uid, text, owner);
      && m.reply == RememberRules
      && o.reply == Remembered(text)
      && o.tables.memory == t.memory + [MemoryRow(t.memorySeq, o.tables.users[uid].id, text)]
      && o.input == input - {uid}
  {
    RememberOtherAppends(t, uid, TextValue(text), NoField);
    assert AsText(TextValue(text)) == text;
    assert input[uid := AwaitRemember] - {uid} == input - {uid};
  }

  /** 'Все' / 'всё' in any letter case deletes all of the user's rows. */
  lemma ForgetModeAll(t: Tables, input: map<int, InputMode>, uid: int, s: string, owner: Option<int>)
    requires uid in input && input[uid] == AwaitForget && IsAllWord(s)
    ensures var o := EverythingStep(t, input, uid, Some(s), owner);
      && o.reply == DeletedAll && RowsOf(o.tables, uid) == [] && o.tables.users == t.users
      && o.input == input - {uid}
  {
    AllKeywordIff(s);
    ForgetAll(t, uid);
  }

  /**
   * A text that is not one of the user's ids (nor the all-word) answers
   * 'Такого ключа нет' and deletes nothing; with no memories, that is every
   * text other than the sentinel.
   */
  lemma ForgetModeUnknownKey(t: Tables, input: map<int, InputMode>, uid: int, s: string, owner: Option<int>)
    requires uid in input && input[uid] == AwaitForget && !IsAllWord(s)
    requires RowsOf(t, uid) != [] || s != EmptyMemory
    requires forall r :: r in RowsOf(t, uid) ==> s != NatToString(r.id)
    ensures EverythingStep(t, input, uid, Some(s), owner) == Outcome(t, input - {uid}, NoSuchKey)
  {
    AllKeywordIff(s);
    RecallIds(t, uid, s);
  }

  /** One of the user's listed ids deletes exactly that row. */
  lemma ForgetModeKnownKey(t: Tables, input: map<int, InputMode>, uid: int, r: MemoryRow, owner: Option<int>)
    requires ValidTables(t) && uid in input && input[uid] == AwaitForget
    requires r in RowsOf(t, uid)
    ensures var o := EverythingStep(t, input, uid, Some(NatToString(r.id)), owner);
      && o.reply == DeletedKey(NatToString(r.id))
      && o.input == input - {uid}
      && o.tables.users == t.users
      && (forall x :: x in o.tables.memory <==> x in t.memory && x != r)
  {
    KnownKeyIsListed(t, uid, r);
    ForgetOne(t, uid, r.id);
    OnlyRowWithItsId(t, uid, r);
  }

  /** A listed id is not the all-word, is listed by recall(uid, 'id'), and PostgreSQL reads it back as that id. */
  lemma KnownKeyIsListed(t: Tables, uid: int, r: MemoryRow)
    requires ValidTables(t) && r in RowsOf(t, uid)
    ensures uid in t.users && r.id != 0
    ensures var s := NatToString(r.id);
      && !(PyLower(s) in ["все", "всё"])
      && RecallOf(t, uid, Key("id")).Lines? && s in RecallOf(t, uid, Key("id")).items
      && ForgetStep(t, uid, Text(s)) == ForgetStep(t, uid, Int(r.id))
  {
    var s := NatToString(r.id);
    IdTextIsNoAllWord(r.id);
    RecallIds(t, uid, s);
    var k :| 0 <= k < |t.memory| && t.memory[k] == r;
    assert 1 <= r.id < t.memorySeq;
    ForgetByIdText(t, uid, r.id);
  }

  /** An id written in decimal is never the all-word. */
  lemma IdTextIsNoAllWord(n: nat)
    ensures !(PyLower(NatToString(n)) in ["все", "всё"])
  {
    var s := NatToString(n);
    assert !IsAllWord(s) by {
      assert |s| == 0 || IsDigit(s[0]);
    }
    AllKeywordIff(s);
  }

  /** Forgetting by the decimal text of a smallint id is forgetting by the id. */
  lemma ForgetByIdText(t: Tables, uid: int, n: nat)
    requires 1 <= n <= SmallintMax
    ensures ForgetStep(t, uid, Text(NatToString(n))) == ForgetStep(t, uid, Int(n))
  {
    PgSmallintOfNatToString(n);
  }

  /** Ids are unique, so the user's row with `r`'s id is `r` itself. */
  lemma OnlyRowWithItsId(t: Tables, uid: int, r: MemoryRow)
    requires ValidTables(t) && r in RowsOf(t, uid) && uid in t.users
    ensures forall x :: x in t.memory && x.id == r.id && x.owner == t.users[uid].id ==> x == r
  {
    var k :| 0 <= k < |t.memory| && t.memory[k] == r;
    forall x | x in t.memory && x.id == r.id && x.owner == t.users[uid].id
      ensures x == r
    {
      var j :| 0 <= j < |t.memory| && t.memory[j] == x;
      UniqueIds(t.memory, j, k);
    }
  }

  /**
   * With no memories, recall(uid, 'id') lists the sentinel text itself, so
   * typing that text passes the key check and the DELETE raises when
   * PostgreSQL reads it as a smallint.
   */
  lemma ForgetModeSentinelRaises(t: Tables, input: map<int, InputMode>, uid: int, owner: Option<int>)
    requires uid in input && input[uid] == AwaitForget && RowsOf(t, uid) == []
    ensures EverythingStep(t, input, uid, Some(EmptyMemory), owner) == Outcome(t, input - {uid}, Raised)
  {
    AllKeywordIff(EmptyMemory);
    RecallIds(t, uid, EmptyMemory);
    SentinelIsNoSmallint();
    ForgetBadIdRaises(t, uid, EmptyMemory);
  }

  /** The sentinel text starts with a letter, so PostgreSQL cannot read it as a smallint. */
  lemma SentinelIsNoSmallint()
    ensures PgSmallint(EmptyMemory).None?
  {
    var s := EmptyMemory;
    assert !IsCSpace(s[0]) && !IsCSpace(s[|s| - 1]);
    assert StripBy(s, IsCSpace) == s;
    assert !IsDigit(s[0]) && s[0] != '+' && s[0] != '-';
  }

  /** A non-text message in forget mode raises on `.lower()`, after the mode was removed. */
  lemma ForgetModeNoText(t: Tables, input: map<int, InputMode>, uid: int, owner: Option<int>)
    requires uid in input && input[uid] == AwaitForget
    ensures EverythingStep(t, input, uid, None, owner) == Outcome(t, input - {uid}, Raised)
  {
  }

  /** The menu and name buttons set the mode the next message is read in, and nothing else. */
  lemma ButtonsSetMode(t: Tables, input: map<int, InputMode>, uid: int, data: string, fullName: string, username: Option<string>)
    ensures var o := MemoryStep(t, input, uid, data);
      && o.tables == t
      && (data == "remember" ==> o.input == input[uid := AwaitRemember])
      && (data == "recall" ==> o.input == input && o.reply == ListingOf(RecallOf(t, uid, NoField)))
      && (data != "remember" && data != "recall" ==> o.input == input[uid := AwaitForget])
    ensures data != "full_name" && data != "username" ==>
      SetNameStep(t, input, uid, data, fullName, username) == Outcome(t, input[uid := AwaitName], TypeName)
  {
  }

  /** The full-name and username buttons store the name at once and leave the mode alone. */
  lemma NameButtonsStoreName(t: Tables, input: map<int, InputMode>, uid: int, data: string, fullName: string, username: Option<string>)
    requires ValidTables(t) && t.userSeq <= SmallSerialMax
    requires data == "full_name" || data == "username"
    ensures var o := SetNameStep(t, input, uid, data, fullName, username);
      var name := if data == "full_name" then Text(fullName) else TextValue(username);
      && o.reply == NameAccepted(name)
      && o.input == input
      && o.tables.memory == t.memory
      && RecallOf(o.tables, uid, Key("name")) == (if Truthy(name) then Scalar(name) else Lines([EmptyMemory]))
  {
    if data == "full_name" {
      RememberReservedThenRecall(t, uid, Text(fullName), Key("name"));
    } else {
      RememberReservedThenRecall(t, uid, TextValue(username), Key("name"));
    }
  }

  // ---------------------------------------------------------- voice quota

  /** A value computed by the quota stages, the tables after it, and whether a remember raised. */
  datatype Stage = Stage(tables: Tables, raised: bool, value: int)

  /** `start_ts`: the stored window start, or `now` written as the new start. */
  function WindowStart(t: Tables, uid: int, now: int): Stage {
    match RecallOf(t, uid, Key("voice_time"))
    case Scalar(Int(s)) => Stage(t, false, s)
    case _ =>
      var s := RememberStep(t, uid, Int(now), Key("voice_time"));
      Stage(s.after, s.raised, now)
  }

  /** After a week the counter is reset to 0 and the window restarts at `now`. */
  function ExpireWindow(t: Tables, uid: int, now: int, start: int): Stage {
    if now - start >= WeekSeconds then
      var a := RememberStep(t, uid, Int(0), Key("voice_counter"));
      if a.raised then Stage(a.after, true, start)
      else
        var b := RememberStep(a.after, uid, Int(now), Key("voice_time"));
        Stage(b.after, b.raised, now)
    else Stage(t, false, start)
  }

  /** `counter`: the stored count, or 0 written as the count. */
  function UsedCount(t: Tables, uid: int): Stage {
    match RecallOf(t, uid, Key("voice_counter"))
    case Scalar(Int(c)) => Stage(t, false, c)
    case _ =>
      var s := RememberStep(t, uid, Int(0), Key("voice_counter"));
      Stage(s.after, s.raised, 0)
  }

  /** How the download, conversion and speech recognition ended. */
  datatype Transcription = Recognised(text: string) | Unrecognised | Broken

  datatype VoiceReply =
    | Invoice(payload: string, amount: nat)   // the 'Лимит расшифровок' invoice in Stars
    | Transcript(text: string)                // 'Расшифрованный текст: {text}'
    | TranscriptThenError(text: string)       // the transcript, then the error of the counter update
    | NotRecognised                           // 'Не удалось распознать речь.'
    | ErrorReply                              // 'Произошла ошибка: {e}'

  datatype VoiceResult = VoiceResult(tables: Tables, reply: VoiceReply)

  /**
   * The three quota stages run in order (beta_bot.py:246-260), stopping at
   * the first remember that raises; the value is the counter read.
   */
  function Prepared(t: Tables, uid: int, now: int): Stage {
    var w := WindowStart(t, uid, now);
    if w.raised then w
    else
      var e := ExpireWindow(w.tables, uid, now, w.value);
      if e.raised then e
      else UsedCount(e.tables, uid)
  }

  /**
   * voice_to_text (beta_bot.py:229-311); `now` is `int(time.time())`,
   * `owner` is MY_CHAT_ID (the invoice amount reads it, so it raises when
   * unset) and `tr` is how the transcription pipeline ended.
   */
  function VoiceStep(t: Tables, uid: int, now: int, fileId: string, owner: Option<int>, tr: Transcription): VoiceResult {
    var c := Prepared(t, uid, now);
    if c.raised then VoiceResult(c.tables, ErrorReply)
    else if c.value >= FreeVoiceLimit then
      match owner
      case None => VoiceResult(c.tables, ErrorReply)
      case Some(o) => VoiceResult(c.tables, Invoice(VoicePayloadPrefix + fileId, if uid != o then 5 else 1))
    else
      match tr
      case Unrecognised => VoiceResult(c.tables, NotRecognised)
      case Broken => VoiceResult(c.tables, ErrorReply)
      case Recognised(text) =>
        var s := RememberStep(c.tables, uid, Int(c.value + 1), Key("voice_counter"));
        VoiceResult(s.after, if s.raised then TranscriptThenError(text) else Transcript(text))
  }

  /** The window start as `recall(uid, "voice_time")` reports it, when it is an int. */
  function StoredWindow(t: Tables, uid: int): Option<int> {
    match RecallOf(t, uid, Key("voice_time"))
    case Scalar(Int(s)) => Some(s)
    case _ => None
  }

  /** The count as the handler reads it: a stored int, otherwise 0. */
  function StoredCount(t: Tables, uid: int): int {
    match RecallOf(t, uid, Key("voice_counter"))
    case Scalar(Int(c)) => c
    case _ => 0
  }

  /** The transcriptions already used in the current week, a week after the stored start counting as none. */
  function CountInWindow(t: Tables, uid: int, now: int): int {
    match StoredWindow(t, uid)
    case Some(s) => if now - s >= WeekSeconds then 0 else StoredCount(t, uid)
    case None => StoredCount(t, uid)
  }

  /** The window start after the handler: `now` when none was stored or it is a week old. */
  function NextWindow(t: Tables, uid: int, now: int): int {
    match StoredWindow(t, uid)
    case Some(s) => if now - s >= WeekSeconds then now else s
    case None => now
  }

  /** `ColumnValue` of the user's row, NULL for a user without one. */
  function ColumnOf(t: Tables, uid: int, c: Column): Value {
    if uid in t.users then ColumnValue(t.users[uid], c) else Null
  }

  /**
   * What the voice handler may change: the users sequence and the user's
   * `voice_time` and `voice_counter` (creating the user's row when it is
   * missing). No memory row, no other user's row, and neither the user's
   * name nor the beta flag changes.
   */
  predicate OnlyVoiceColumns(t: Tables, t2: Tables, uid: int) {
    && t2.memory == t.memory && t2.memorySeq == t.memorySeq
    && t2.users.Keys <= t.users.Keys + {uid}
    && (forall u :: u in t.users && u != uid ==> u in t2.users && t2.users[u] == t.users[u])
    && ColumnOf(t2, uid, NameColumn) == ColumnOf(t, uid, NameColumn)
    && ColumnOf(t2, uid, BetaColumn) == ColumnOf(t, uid, BetaColumn)
  }

  lemma OnlyVoiceColumnsChain(a: Tables, b: Tables, c: Tables, uid: int)
    requires OnlyVoiceColumns(a, b, uid) && OnlyVoiceColumns(b, c, uid)
    ensures OnlyVoiceColumns(a, c, uid)
  {
  }

  /** A reserved-column remember changes no other column of the user, no other user's row and no memory row. */
  lemma ColumnWrite(t: Tables, uid: int, v: Value, f: FieldArg)
    requires ValidTables(t) && t.userSeq <= SmallSerialMax && ReservedColumn(f).Some?
    ensures var s := RememberStep(t, uid, v, f);
      && !s.raised && ValidTables(s.after)
      && s.after.memory == t.memory && s.after.userSeq == t.userSeq + 1
      && ColumnOf(s.after, uid, ReservedColumn(f).value) == v
      && (forall d :: d != ReservedColumn(f).value ==> ColumnOf(s.after, uid, d) == ColumnOf(t, uid, d))
    ensures var s := RememberStep(t, uid, v, f);
      ReservedColumn(f).value in {VoiceTimeColumn, VoiceCounterColumn} ==> OnlyVoiceColumns(t, s.after, uid)
  {
    RememberReservedThenRecall(t, uid, v, f);
    RememberKeepsValid(t, uid, v, f);
    RememberEnsuresUserRow(t, uid, v, f);
  }

  /** The two quota readings depend only on their own column. */
  lemma ReadingsFromColumns(t: Tables, uid: int)
    ensures StoredWindow(t, uid) == (match ColumnOf(t, uid, VoiceTimeColumn) case Int(s) => if s != 0 then Some(s) else None case _ => None)
    ensures StoredCount(t, uid) == (match ColumnOf(t, uid, VoiceCounterColumn) case Int(c) => c case _ => 0)
  {
  }

  lemma WindowStartSpec(t: Tables, uid: int, now: int)
    requires ValidTables(t) && t.userSeq <= SmallSerialMax
    ensures var w := WindowStart(t, uid, now);
      && !w.raised && ValidTables(w.tables) && w.tables.memory == t.memory
      && w.tables.userSeq <= t.userSeq + 1
      && w.value == (if StoredWindow(t, uid).Some? then StoredWindow(t, uid).value else now)
      && StoredCount(w.tables, uid) == StoredCount(t, uid)
      && (StoredWindow(t, uid).Some? || now != 0 ==> StoredWindow(w.tables, uid) == Some(w.value))
    ensures OnlyVoiceColumns(t, WindowStart(t, uid, now).tables, uid)
  {
    ReadingsFromColumns(t, uid);
    if StoredWindow(t, uid).None? {
      var s := RememberStep(t, uid, Int(now), Key("voice_time"));
      ColumnWrite(t, uid, Int(now), Key("voice_time"));
      ReadingsFromColumns(s.after, uid);
    }
  }

  lemma ExpireWindowSpec(t: Tables, uid: int, now: int, start: int)
    requires ValidTables(t) && t.userSeq + 1 <= SmallSerialMax
    ensures var e := ExpireWindow(t, uid, now, start);
      && !e.raised && ValidTables(e.tables) && e.tables.memory == t.memory
      && e.tables.userSeq <= t.userSeq + 2
      && e.value == (if now - start >= WeekSeconds then now else start)
      && (now - start < WeekSeconds ==> e.tables == t)
      && (now - start >= WeekSeconds ==> StoredCount(e.tables, uid) == 0)
      && (now - start >= WeekSeconds && now != 0 ==> StoredWindow(e.tables, uid) == Some(now))
    ensures OnlyVoiceColumns(t, ExpireWindow(t, uid, now, start).tables, uid)
  {
    if now - start >= WeekSeconds {
      var a := RememberStep(t, uid, Int(0), Key("voice_counter"));
      ColumnWrite(t, uid, Int(0), Key("voice_counter"));
      var b := RememberStep(a.after, uid, Int(now), Key("voice_time"));
      ColumnWrite(a.after, uid, Int(now), Key("voice_time"));
      ReadingsFromColumns(b.after, uid);
      OnlyVoiceColumnsChain(t, a.after, b.after, uid);
    }
  }

  lemma UsedCountSpec(t: Tables, uid: int)
    requires ValidTables(t) && t.userSeq <= SmallSerialMax
    ensures var c := UsedCount(t, uid);
      && !c.raised && ValidTables(c.tables) && c.tables.memory == t.memory
      && c.tables.userSeq <= t.userSeq + 1
      && c.value == StoredCount(t, uid)
      && StoredCount(c.tables, uid) == StoredCount(t, uid)
      && StoredWindow(c.tables, uid) == StoredWindow(t, uid)
    ensures OnlyVoiceColumns(t, UsedCount(t, uid).tables, uid)
  {
    ReadingsFromColumns(t, uid);
    if !(RecallOf(t, uid, Key("voice_counter")).Scalar? && RecallOf(t, uid, Key("voice_counter")).v.Int?) {
      var s := RememberStep(t, uid, Int(0), Key("voice_counter"));
      ColumnWrite(t, uid, Int(0), Key("voice_counter"));
      ReadingsFromColumns(s.after, uid);
    }
  }

  /**
   * While the users sequence has room for three writes, the stages never
   * raise: the counter read is the count of the current week, the stored
   * count agrees with it, the window restarts at `now` when it was unset or
   * a week old, and nothing but the user's voice columns changes.
   */
  lemma PreparedSpec(t: Tables, uid: int, now: int)
    requires ValidTables(t) && t.userSeq + 3 <= SmallSerialMax
    ensures var c := Prepared(t, uid, now);
      && !c.raised && ValidTables(c.tables) && c.tables.userSeq <= t.userSeq + 3
      && c.value == CountInWindow(t, uid, now)
      && StoredCount(c.tables, uid) == c.value
      && (now != 0 ==> StoredWindow(c.tables, uid) == Some(NextWindow(t, uid, now)))
      && c.tables.memory == t.memory
    ensures OnlyVoiceColumns(t, Prepared(t, uid, now).tables, uid)
  {
    var w := WindowStart(t, uid, now);
    WindowStartSpec(t, uid, now);
    var e := ExpireWindow(w.tables, uid, now, w.value);
    ExpireWindowSpec(w.tables, uid, now, w.value);
    UsedCountSpec(e.tables, uid);
    OnlyVoiceColumnsChain(t, w.tables, e.tables, uid);
    OnlyVoiceColumnsChain(t, e.tables, UsedCount(e.tables, uid).tables, uid);
  }

  /**
   * The weekly quota, while the users sequence has room for the handler's
   * writes: an invoice is sent exactly when ten transcriptions were already
   * used this week; a recognised voice message under the limit is
   * transcribed and counted once; nothing else changes the count; the
   * window restarts at `now` when it was unset or a week old; the memory
   * table, the other users' rows and the user's name and beta flag are
   * never touched.
   */
  lemma VoiceQuota(t: Tables, uid: int, now: int, fileId: string, owner: Option<int>, tr: Transcription)
    requires ValidTables(t) && t.userSeq + 4 <= SmallSerialMax
    ensures var r := VoiceStep(t, uid, now, fileId, owner, tr);
      var used := CountInWindow(t, uid, now);
      && (r.reply.Invoice? <==> used >= FreeVoiceLimit && owner.Some?)
      && (r.reply.Invoice? ==> r.reply == Invoice(VoicePayloadPrefix + fileId, if uid == owner.value then 1 else 5))
      && (used < FreeVoiceLimit && tr.Recognised? ==>
            r.reply == Transcript(tr.text) && StoredCount(r.tables, uid) == used + 1)
      && (!r.reply.Transcript? ==> StoredCount(r.tables, uid) == used)
      && (now != 0 ==> StoredWindow(r.tables, uid) == Some(NextWindow(t, uid, now)))
      && r.tables.memory == t.memory
    ensures OnlyVoiceColumns(t, VoiceStep(t, uid, now, fileId, owner, tr).tables, uid)
  {
    var c := Prepared(t, uid, now);
    PreparedSpec(t, uid, now);
    if c.value < FreeVoiceLimit && tr.Recognised? {
      CounterWrite(c.tables, uid, c.value + 1);
    }
    VoiceStepFrame(t, uid, now, fileId, owner, tr);
  }

  /** The voice handler changes only the user's voice columns. */
  lemma VoiceStepFrame(t: Tables, uid: int, now: int, fileId: string, owner: Option<int>, tr: Transcription)
    requires ValidTables(t) && t.userSeq + 4 <= SmallSerialMax
    ensures OnlyVoiceColumns(t, VoiceStep(t, uid, now, fileId, owner, tr).tables, uid)
  {
    var c := Prepared(t, uid, now);
    PreparedSpec(t, uid, now);
    if c.value < FreeVoiceLimit && tr.Recognised? {
      var s := RememberStep(c.tables, uid, Int(c.value + 1), Key("voice_counter"));
      CounterWrite(c.tables, uid, c.value + 1);
      OnlyVoiceColumnsChain(t, c.tables, s.after, uid);
    }
  }

  /** Writing the counter sets the count the handler reads and changes no other column, row or memory. */
  lemma CounterWrite(t: Tables, uid: int, n: int)
    requires ValidTables(t) && t.userSeq <= SmallSerialMax
    ensures var s := RememberStep(t, uid, Int(n), Key("voice_counter"));
      && !s.raised && s.after.memory == t.memory
      && StoredCount(s.after, uid) == n
      && StoredWindow(s.after, uid) == StoredWindow(t, uid)
    ensures OnlyVoiceColumns(t, RememberStep(t, uid, Int(n), Key("voice_counter")).after, uid)
  {
    var s := RememberStep(t, uid, Int(n), Key("voice_counter"));
    ColumnWrite(t, uid, Int(n), Key("voice_counter"));
    ReadingsFromColumns(t, uid);
    ReadingsFromColumns(s.after, uid);
  }

  // -------------------------------------------------------------- payment

  /** What successful_payment_handler decides from the invoice payload alone. */
  datatype PaymentPlan = Ignore | ThankDonor | RefundNoFile | TranscribePaid(fileId: string)

  /** The payload test and `payload.split(":", 1)[1].strip()` (beta_bot.py:367-399). */
  function PaymentPlanOf(payload: Option<string>): PaymentPlan {
    var p := if payload.Some? then payload.value else "";
    if !StartsWith(p, VoicePayloadPrefix) then
      if p == DonatePayload then ThankDonor else Ignore
    else
      var id := if ':' in p then PyStrip(AfterFirst(p, ':')) else "";
      if id == "" then RefundNoFile else TranscribePaid(id)
  }

  datatype RefundReason = NoFileId | PaidNotRecognised | PaidError
  datatype RefundResult = Refunded | RefundFailed | NoChargeId

  datatype PaidReply =
    | Silent
    | Thanks
    | PaidTranscript(text: string)
    | RefundNotice(reason: RefundReason, result: RefundResult)

  /** refund_and_notify: a refund is attempted only with a non-empty charge id. */
  function RefundResultOf(chargeId: Option<string>, refundOk: bool): RefundResult {
    if chargeId.Some? && chargeId.value != "" then (if refundOk then Refunded else RefundFailed) else NoChargeId
  }

  /**
   * successful_payment_handler (beta_bot.py:367-443). It reads and writes
   * no table: a paid transcription leaves the weekly count alone.
   */
  function PaymentReply(payload: Option<string>, tr: Transcription, chargeId: Option<string>, refundOk: bool): PaidReply {
    match PaymentPlanOf(payload)
    case Ignore => Silent
    case ThankDonor => Thanks
    case RefundNoFile => RefundNotice(NoFileId, RefundResultOf(chargeId, refundOk))
    case TranscribePaid(_) =>
      match tr
      case Recognised(text) => PaidTranscript(text)
      case Unrecognised => RefundNotice(PaidNotRecognised, RefundResultOf(chargeId, refundOk))
      case Broken => RefundNotice(PaidError, RefundResultOf(chargeId, refundOk))
  }

  lemma {:induction false} FirstIndexAt(s: string, c: char, k: nat)
    requires k < |s| && s[k] == c
    requires forall i :: 0 <= i < k ==> s[i] != c
    ensures c in s && FirstIndexOf(s, c) == k
  {
    if k > 0 {
      FirstIndexAt(s[1..], c, k - 1);
    }
  }

  /** For a voice payload, the file id is the stripped text after the 20-character prefix. */
  lemma VoicePayloadFileId(p: string)
    requires StartsWith(p, VoicePayloadPrefix)
    ensures PaymentPlanOf(Some(p)) ==
      (if PyStrip(p[|VoicePayloadPrefix|..]) == "" then RefundNoFile else TranscribePaid(PyStrip(p[|VoicePayloadPrefix|..])))
  {
    assert p[..20] == VoicePayloadPrefix;
    assert forall i :: 0 <= i < 19 ==> p[i] == VoicePayloadPrefix[i];
    assert forall i :: 0 <= i < 19 ==> VoicePayloadPrefix[i] != ':';
    FirstIndexAt(p, ':', 19);
  }

  /** The payload of the quota invoice brings back the same voice file once it is paid. */
  lemma InvoicePayloadRoundTrip(fileId: string)
    requires fileId != "" && !IsPySpace(fileId[0]) && !IsPySpace(fileId[|fileId| - 1])
    ensures PaymentPlanOf(Some(VoicePayloadPrefix + fileId)) == TranscribePaid(fileId)
  {
    var p := VoicePayloadPrefix + fileId;
    assert p[..|VoicePayloadPrefix|] == VoicePayloadPrefix;
    VoicePayloadFileId(p);
    assert p[|VoicePayloadPrefix|..] == fileId;
  }

  /**
   * A voice payment is refunded exactly when no file id can be read or the
   * paid transcription fails; other payloads are thanked ("donate") or ignored.
   */
  lemma PaymentRefunds(payload: Option<string>, tr: Transcription, chargeId: Option<string>, refundOk: bool)
    ensures var p := if payload.Some? then payload.value else "";
      var r := PaymentReply(payload, tr, chargeId, refundOk);
      && (r.RefundNotice? <==> StartsWith(p, VoicePayloadPrefix) && !(PaymentPlanOf(payload).TranscribePaid? && tr.Recognised?))
      && (r == Thanks <==> p == DonatePayload)
      && (r.PaidTranscript? <==> StartsWith(p, VoicePayloadPrefix) && PaymentPlanOf(payload).TranscribePaid? && tr.Recognised?)
      && (r.RefundNotice? && r.result == Refunded ==> chargeId.Some? && chargeId.value != "" && refundOk)
    ensures var r := PaymentReply(payload, tr, chargeId, refundOk);
      var charged := chargeId.Some? && chargeId.value != "";
      && (r.RefundNotice? ==> (r.reason == NoFileId <==> PaymentPlanOf(payload) == RefundNoFile))
      && (r.RefundNotice? ==> (r.result == NoChargeId <==> !charged) && (r.result == Refunded <==> charged && refundOk))
      && (r.PaidTranscript? ==> tr == Recognised(r.text))
  {
    PlanShape(payload);
  }

  /** Which payloads lead to which plan. */
  lemma PlanShape(payload: Option<string>)
    ensures var p := if payload.Some? then payload.value else "";
      var plan := PaymentPlanOf(payload);
      && (plan.TranscribePaid? || plan.RefundNoFile? <==> StartsWith(p, VoicePayloadPrefix))
      && (plan.ThankDonor? <==> p == DonatePayload)
  {
    var p := if payload.Some? then payload.value else "";
    if p == DonatePayload {
      assert !StartsWith(p, VoicePayloadPrefix);
    }
  }

  // --------------------------------------------------------------- the bot

  /** The beta module's state: `keyboard_input`, the database it talks to and MY_CHAT_ID. */
  class BetaBot {
    var keyboardInput: map<int, InputMode>
    const db: Db
    const owner: Option<int>

    constructor (db: Db, owner: Option<int>)
      ensures this.db == db && this.owner == owner && keyboardInput == map[]
    {
      this.db := db;
      this.owner := owner;
      keyboardInput := map[];
    }

    method SetName(uid: int, data: string, fullName: string, username: Option<string>) returns (reply: Reply)
      requires db.Valid()
      modifies this, db
      ensures db.Valid()
      ensures Outcome(db.Snapshot(), keyboardInput, reply)
           == SetNameStep(old(db.Snapshot()), old(keyboardInput), uid, data, fullName, username)
    {
      if data == "full_name" || data == "username" {
        var name := if data == "full_name" then Text(fullName) else TextValue(username);
        var raised := db.Remember(uid, name, Key("name"));
        reply := if raised then Raised else NameAccepted(name);
      } else {
        keyboardInput := keyboardInput[uid := AwaitName];
        reply := TypeName;
      }
    }

    method Memory(uid: int, data: string) returns (reply: Reply)
      modifies this
      ensures Outcome(db.Snapshot(), keyboardInput, reply) == MemoryStep(db.Snapshot(), old(keyboardInput), uid, data)
    {
      if data == "remember" {
        keyboardInput := keyboardInput[uid := AwaitRemember];
        reply := RememberRules;
      } else if data == "recall" {
        var r := db.Recall(uid, NoField);
        reply := ListingOf(r);
      } else {
        keyboardInput := keyboardInput[uid := AwaitForget];
        var r := db.Recall(uid, NoField);
        reply := ListingOf(r);
      }
    }

    method Feedback(uid: int)
      modifies this
      ensures keyboardInput == FeedbackStep(old(keyboardInput), uid)
    {
      keyboardInput := keyboardInput[uid := AwaitFeedback];
    }

    method Everything(uid: int, text: Option<string>) returns (reply: Reply)
      requires db.Valid()
      modifies this, db
      ensures db.Valid()
      ensures Outcome(db.Snapshot(), keyboardInput, reply)
           == EverythingStep(old(db.Snapshot()), old(keyboardInput), uid, text, owner)
    {
      if uid !in keyboardInput {
        return UseButtons;
      }
      var mode := keyboardInput[uid];
      if mode == AwaitName {
        var raised := db.Remember(uid, TextValue(text), Flag(true));
        if raised {
          return Raised;
        }
        keyboardInput := keyboardInput - {uid};
        var shown := db.Recall(uid, Key("name"));
        reply := NameSet(shown);
      } else if mode == AwaitFeedback {
        if owner.None? {
          return Raised;
        }
        reply := Forwarded(owner.value, text);
        keyboardInput := keyboardInput - {uid};
      } else if mode == AwaitRemember {
        var raised := db.Remember(uid, TextValue(text), NoField);
        if raised {
          return Raised;
        }
        reply := Remembered(text);
        keyboardInput := keyboardInput - {uid};
      } else {
        keyboardInput := keyboardInput - {uid};
        if text.None? {
          return Raised;
        }
        reply := ForgetText(uid, text.value);
      }
    }

    /** The forget branch of `everything` after the mode is removed. */
    method ForgetText(uid: int, s: string) returns (reply: Reply)
      requires db.Valid()
      modifies db
      ensures db.Valid()
      ensures Outcome(db.Snapshot(), keyboardInput, reply) == ForgetInput(old(db.Snapshot()), keyboardInput, uid, s)
    {
      if PyLower(s) in ["все", "всё"] {
        var _ := db.Forget(uid, Null);
        return DeletedAll;
      }
      var ids := db.Recall(uid, Key("id"));
      if !ids.Lines? {
        return Raised;
      }
      if s !in ids.items {
        return NoSuchKey;
      }
      var raised := db.Forget(uid, Text(s));
      reply := if raised then Raised else DeletedKey(s);
    }

    /** `start_ts` of voice_to_text. */
    method StartWindow(uid: int, now: int) returns (raised: bool, start: int)
      requires db.Valid()
      modifies db
      ensures db.Valid()
      ensures Stage(db.Snapshot(), raised, start) == WindowStart(old(db.Snapshot()), uid, now)
    {
      raised := false;
      var r := db.Recall(uid, Key("voice_time"));
      if r.Scalar? && r.v.Int? {
        start := r.v.i;
      } else {
        start := now;
        raised := db.Remember(uid, Int(start), Key("voice_time"));
      }
    }

    /** The weekly reset of voice_to_text. */
    method RestartExpired(uid: int, now: int, start0: int) returns (raised: bool, start: int)
      requires db.Valid()
      modifies db
      ensures db.Valid()
      ensures Stage(db.Snapshot(), raised, start) == ExpireWindow(old(db.Snapshot()), uid, now, start0)
    {
      raised, start := false, start0;
      if now - start >= WeekSeconds {
        raised := db.Remember(uid, Int(0), Key("voice_counter"));
        if raised {
          return;
        }
        start := now;
        raised := db.Remember(uid, Int(start), Key("voice_time"));
      }
    }

    /** `counter` of voice_to_text. */
    method ReadCounter(uid: int) returns (raised: bool, counter: int)
      requires db.Valid()
      modifies db
      ensures db.Valid()
      ensures Stage(db.Snapshot(), raised, counter) == UsedCount(old(db.Snapshot()), uid)
    {
      raised := false;
      var c := db.Recall(uid, Key("voice_counter"));
      if c.Scalar? && c.v.Int? {
        counter := c.v.i;
      } else {
        counter := 0;
        raised := db.Remember(uid, Int(counter), Key("voice_counter"));
      }
    }

    /** The three stages of voice_to_text before the limit test. */
    method Prepare(uid: int, now: int) returns (raised: bool, counter: int)
      requires db.Valid()
      modifies db
      ensures db.Valid()
      ensures Stage(db.Snapshot(), raised, counter) == Prepared(old(db.Snapshot()), uid, now)
    {
      var start;
      raised, start := StartWindow(uid, now);
      if raised {
        return raised, start;
      }
      raised, start := RestartExpired(uid, now, start);
      if raised {
        return raised, start;
      }
      raised, counter := ReadCounter(uid);
    }

    method VoiceToText(uid: int, now: int, fileId: string, tr: Transcription) returns (reply: VoiceReply)
      requires db.Valid()
      modifies db
      ensures db.Valid()
      ensures VoiceResult(db.Snapshot(), reply) == VoiceStep(old(db.Snapshot()), uid, now, fileId, owner, tr)
    {
      var raised, counter := Prepare(uid, now);
      if raised {
        return ErrorReply;
      }
      if counter >= FreeVoiceLimit {
        if owner.None? {
          return ErrorReply;
        }
        return Invoice(VoicePayloadPrefix + fileId, if uid != owner.value then 5 else 1);
      }
      match tr
      case Unrecognised => reply := NotRecognised;
      case Broken => reply := ErrorReply;
      case Recognised(text) =>
        raised := db.Remember(uid, Int(counter + 1), Key("voice_counter"));
        reply := if raised then TranscriptThenError(text) else Transcript(text);
    }
  }
}
