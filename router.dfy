/**
 * The handler router of bot.py: every update is passed to the handler of
 * the same name in the beta or the stable module, chosen by the `beta`
 * column of the user's row, with a fallback to the other module when the
 * chosen one lacks that handler. The `beta` and `stable` buttons write the
 * preference.
 */
module Router {
  import opened PyText
  import opened RecordStore

  /** The two handler modules: beta_bot and stable_bot. */
  datatype Track = BetaTrack | StableTrack

  /**
   * The handler functions beta_bot.py defines. `hasattr` is also true for
   * its imports and other globals, but no such name is ever dispatched.
   */
  const BetaNames: set<string> := {
    "_transcribe_wav", "send_typing_indicator", "start_bot", "info", "status", "changelog",
    "roll_dice", "memory_menu", "menu", "choose_name", "set_name", "memory", "dev", "donate",
    "feedback", "voice_to_text", "inline_emojis", "pre_checkout_handler",
    "successful_payment_handler", "everything"}

  /** The handler names bot.py passes to `_dispatch` (bot.py:56-173). */
  const DispatchedNames: set<string> := {
    "start_bot", "info", "status", "changelog", "roll_dice", "memory_menu", "menu",
    "choose_name", "set_name", "memory", "dev", "donate", "feedback", "voice_to_text",
    "inline_emojis", "pre_checkout_handler", "successful_payment_handler", "everything"}

  /**
   * _select_module (bot.py:18-23): beta exactly when recall(uid, 'beta')
   * is the string 'True'. `reachable` is false when connecting to the
   * database raises, which also selects stable.
   */
  function SelectModule(t: Tables, uid: int, reachable: bool): Track {
    if reachable && RecallOf(t, uid, Key("beta")) == Scalar(Text("True")) then BetaTrack else StableTrack
  }

  /** Whether the module defines `name`; stable_bot's names are a parameter. */
  predicate Defines(m: Track, name: string, stableNames: set<string>) {
    match m
    case BetaTrack => name in BetaNames
    case StableTrack => name in stableNames
  }

  /**
   * _dispatch (bot.py:26-35): the module whose handler is returned, `None`
   * standing for the AttributeError of the last `getattr`.
   */
  function Dispatch(name: string, t: Tables, uid: int, reachable: bool, stableNames: set<string>): Option<Track> {
    var m := SelectModule(t, uid, reachable);
    if Defines(m, name, stableNames) then Some(m)
    else if Defines(BetaTrack, name, stableNames) then Some(BetaTrack)
    else if Defines(StableTrack, name, stableNames) then Some(StableTrack)
    else None
  }

  /** The preference the `beta` (true) and `stable` (false) buttons store (bot.py:149-158). */
  function PreferenceStep(t: Tables, uid: int, beta: bool): Step {
    RememberStep(t, uid, Text(if beta then "True" else "False"), Key("beta"))
  }

  // ------------------------------------------------------ what they promise

  /** Beta is selected exactly for a reachable database whose row for the user holds 'True'. */
  lemma SelectBetaIff(t: Tables, uid: int, reachable: bool)
    ensures SelectModule(t, uid, reachable) == BetaTrack <==>
      reachable && uid in t.users && t.users[uid].beta == Text("True")
  {
  }

  /** The chosen module's own handler wins whenever it exists. */
  lemma DispatchPrefersSelected(name: string, t: Tables, uid: int, reachable: bool, stableNames: set<string>)
    requires Defines(SelectModule(t, uid, reachable), name, stableNames)
    ensures Dispatch(name, t, uid, reachable, stableNames) == Some(SelectModule(t, uid, reachable))
  {
  }

  /** A missing handler falls back to beta_bot, then to stable_bot, and fails only when neither has it. */
  lemma DispatchFallback(name: string, t: Tables, uid: int, reachable: bool, stableNames: set<string>)
    requires !Defines(SelectModule(t, uid, reachable), name, stableNames)
    ensures Dispatch(name, t, uid, reachable, stableNames) ==
      (if name in BetaNames then Some(BetaTrack) else if name in stableNames then Some(StableTrack) else None)
    ensures Dispatch(name, t, uid, reachable, stableNames).None? <==> name !in BetaNames && name !in stableNames
  {
  }

  /** Every name bot.py dispatches resolves, whatever stable_bot defines, since beta_bot defines them all. */
  lemma EveryHandlerResolves(name: string, t: Tables, uid: int, reachable: bool, stableNames: set<string>)
    requires name in DispatchedNames
    ensures Dispatch(name, t, uid, reachable, stableNames).Some?
    ensures SelectModule(t, uid, reachable) == BetaTrack ==> Dispatch(name, t, uid, reachable, stableNames) == Some(BetaTrack)
  {
    assert name in BetaNames;
  }

  /** After pressing `beta` or `stable`, the next selection follows that choice; nobody else's changes. */
  lemma SelectionFollowsChoice(t: Tables, uid: int, beta: bool, other: int, reachable: bool)
    requires ValidTables(t) && t.userSeq <= SmallSerialMax
    requires other != uid
    ensures var s := PreferenceStep(t, uid, beta);
      && !s.raised
      && SelectModule(s.after, uid, true) == (if beta then BetaTrack else StableTrack)
      && SelectModule(s.after, other, reachable) == SelectModule(t, other, reachable)
  {
    var v := Text(if beta then "True" else "False");
    RememberReservedThenRecall(t, uid, v, Key("beta"));
    RememberEnsuresUserRow(t, uid, v, Key("beta"));
    SelectBetaIff(t, other, reachable);
    SelectBetaIff(PreferenceStep(t, uid, beta).after, other, reachable);
  }

  /** The `beta` button (bot.py:149-152). */
  method BetaButton(db: Db, uid: int) returns (raised: bool)
    requires db.Valid()
    modifies db
    ensures db.Valid()
    ensures Step(db.Snapshot(), raised) == PreferenceStep(old(db.Snapshot()), uid, true)
  {
    raised := db.Remember(uid, Text("True"), Key("beta"));
  }

  /** The `stable` button (bot.py:155-158). */
  method StableButton(db: Db, uid: int) returns (raised: bool)
    requires db.Valid()
    modifies db
    ensures db.Valid()
    ensures Step(db.Snapshot(), raised) == PreferenceStep(old(db.Snapshot()), uid, false)
  {
    raised := db.Remember(uid, Text("False"), Key("beta"));
  }
}
