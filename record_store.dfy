/**
 * The PostgreSQL record store of db.py: a `users` table keyed by the unique
 * Telegram id `tg_id`, with the reserved columns `name`, `beta`,
 * `voice_time` and `voice_counter`, and a `memory` table of free-form rows
 * whose ids come from one auto-increment sequence shared by all users.
 *
 * The pure functions on `Tables` say what each operation does; the class
 * `Db` holds the tables as fields and its methods are proved to agree with
 * those functions.
 */
module RecordStore {
  import opened PyText

  /** Largest value a SMALLSERIAL sequence hands out; the next request raises. */
  const SmallSerialMax: nat := 32767

  /** The sentinel list `recall` returns for every falsy result. */
  const EmptyMemory: string := "Нет элементов в памяти😔"

  /** A row of `users`; `id` is the SMALLSERIAL key the memory rows refer to. */
  datatype UserRow = UserRow(id: nat, name: Value, beta: Value, voiceTime: Value, voiceCounter: Value)

  /** A row of `memory`; `data` is a nullable TEXT column. */
  datatype MemoryRow = MemoryRow(id: nat, owner: nat, data: Option<string>)

  /** The `field` argument of remember/recall: `None`, a bool such as `True`, or a string. */
  datatype FieldArg = NoField | Flag(b: bool) | Key(k: string)

  datatype Column = NameColumn | BetaColumn | VoiceTimeColumn | VoiceCounterColumn

  /** The four field names stored as columns of `users` (db.py:41 and db.py:69). */
  function ReservedColumn(f: FieldArg): (c: Option<Column>)
    ensures c.Some? <==> f in {Key("name"), Key("voice_time"), Key("voice_counter"), Key("beta")}
    ensures c == Some(NameColumn) <==> f == Key("name")
    ensures c == Some(BetaColumn) <==> f == Key("beta")
    ensures c == Some(VoiceTimeColumn) <==> f == Key("voice_time")
    ensures c == Some(VoiceCounterColumn) <==> f == Key("voice_counter")
  {
    if f == Key("name") then Some(NameColumn)
    else if f == Key("beta") then Some(BetaColumn)
    else if f == Key("voice_time") then Some(VoiceTimeColumn)
    else if f == Key("voice_counter") then Some(VoiceCounterColumn)
    else None
  }

  function ColumnValue(u: UserRow, c: Column): Value {
    match c
    case NameColumn => u.name
    case BetaColumn => u.beta
    case VoiceTimeColumn => u.voiceTime
    case VoiceCounterColumn => u.voiceCounter
  }

  /** The row after `UPDATE users SET <c> = v`. */
  function WithColumn(u: UserRow, c: Column, v: Value): (r: UserRow)
    ensures r.id == u.id && ColumnValue(r, c) == v
    ensures forall d :: d != c ==> ColumnValue(r, d) == ColumnValue(u, d)
  {
    match c
    case NameColumn => u.(name := v)
    case BetaColumn => u.(beta := v)
    case VoiceTimeColumn => u.(voiceTime := v)
    case VoiceCounterColumn => u.(voiceCounter := v)
  }

  /** A value bound into the TEXT column `data`: ints are cast to their decimal text. */
  function AsText(v: Value): (r: Option<string>)
    ensures r.None? <==> v.Null?
    ensures v.Text? ==> r == Some(v.s)
  {
    match v
    case Null => None
    case Int(i) => Some(IntToString(i))
    case Text(s) => Some(s)
  }

  /** Both tables and the next values of their two sequences. */
  datatype Tables = Tables(users: map<int, UserRow>, memory: seq<MemoryRow>, userSeq: nat, memorySeq: nat)

  const EmptyTables: Tables := Tables(map[], [], 1, 1)

  predicate IdsIncreasing(rows: seq<MemoryRow>) {
    forall i, j :: 0 <= i < j < |rows| ==> rows[i].id < rows[j].id
  }

  /** The schema's constraints: unique keys, sequence bounds, ids in creation order. */
  predicate ValidTables(t: Tables) {
    && 1 <= t.userSeq <= SmallSerialMax + 1
    && 1 <= t.memorySeq <= SmallSerialMax + 1
    && (forall tg :: tg in t.users ==> 1 <= t.users[tg].id < t.userSeq)
    && (forall a, b :: a in t.users && b in t.users && a != b ==> t.users[a].id != t.users[b].id)
    && (forall i :: 0 <= i < |t.memory| ==> 1 <= t.memory[i].id < t.memorySeq)
    && IdsIncreasing(t.memory)
  }

  // ----------------------------------------------------------- WHERE clauses

  /** The row conditions of the SELECT and the two DELETEs. */
  datatype Where = OwnedBy(owner: nat) | NotOwnedBy(owner: nat) | NotRow(owner: nat, id: int)

  predicate Holds(w: Where, r: MemoryRow) {
    match w
    case OwnedBy(o) => r.owner == o
    case NotOwnedBy(o) => r.owner != o
    case NotRow(o, id) => !(r.owner == o && r.id == id)
  }

  /** The rows satisfying `w`, in table order. */
  function Select(rows: seq<MemoryRow>, w: Where): (r: seq<MemoryRow>)
    ensures |r| <= |rows|
    ensures forall x :: x in r <==> x in rows && Holds(w, x)
  {
    if rows == [] then []
    else
      var init := Select(rows[..|rows| - 1], w);
      var last := rows[|rows| - 1];
      assert rows == rows[..|rows| - 1] + [last];
      if Holds(w, last) then init + [last] else init
  }

  lemma {:induction false} SelectKeepsOrder(rows: seq<MemoryRow>, w: Where)
    requires IdsIncreasing(rows)
    ensures IdsIncreasing(Select(rows, w))
  {
    if rows != [] {
      var init := rows[..|rows| - 1];
      var last := rows[|rows| - 1];
      SelectKeepsOrder(init, w);
      forall x | x in Select(init, w) ensures x.id < last.id {
        var k :| 0 <= k < |init| && init[k] == x;
        assert rows[k] == x;
      }
    }
  }

  /** A row with id `id` occurs at most once in a table whose ids increase. */
  lemma UniqueIds(rows: seq<MemoryRow>, i: int, j: int)
    requires IdsIncreasing(rows) && 0 <= i < |rows| && 0 <= j < |rows|
    requires rows[i].id == rows[j].id
    ensures i == j
  {
  }

  // ------------------------------------------------------------------ recall

  /** `users.id` of the user with this Telegram id, if the row exists. */
  function OwnerOf(t: Tables, tg: int): (o: Option<nat>)
    ensures o.Some? <==> tg in t.users
  {
    if tg in t.users then Some(t.users[tg].id) else None
  }

  /** `SELECT memory.id, data FROM memory JOIN users ... WHERE users.tg_id = tg`. */
  function RowsOf(t: Tables, tg: int): (r: seq<MemoryRow>)
    ensures tg !in t.users ==> r == []
    ensures tg in t.users ==> forall x :: x in r <==> x in t.memory && x.owner == t.users[tg].id
  {
    match OwnerOf(t, tg)
    case None => []
    case Some(o) => Select(t.memory, OwnedBy(o))
  }

  /** `str(i[0])` for every selected row. */
  function IdLines(rows: seq<MemoryRow>): (r: seq<string>)
    ensures |r| == |rows|
    ensures forall i :: 0 <= i < |rows| ==> r[i] == NatToString(rows[i].id)
  {
    if rows == [] then [] else IdLines(rows[..|rows| - 1]) + [NatToString(rows[|rows| - 1].id)]
  }

  function DataLine(r: MemoryRow): string
    requires r.data.Some?
  {
    NatToString(r.id) + ": " + r.data.value
  }

  /**
   * `str(i[0]) + ': ' + i[1]` for every selected row; `None` when a NULL
   * `data` makes the concatenation raise TypeError.
   */
  function DataLines(rows: seq<MemoryRow>): (r: Option<seq<string>>)
    ensures r.None? <==> exists i :: 0 <= i < |rows| && rows[i].data.None?
    ensures r.Some? ==> |r.value| == |rows|
    ensures r.Some? ==> forall i :: 0 <= i < |rows| ==> rows[i].data.Some? && r.value[i] == DataLine(rows[i])
  {
    if rows == [] then Some([])
    else
      var init := DataLines(rows[..|rows| - 1]);
      var last := rows[|rows| - 1];
      if init.None? || last.data.None? then None else Some(init.value + [DataLine(last)])
  }

  /** What `recall` computes: a column value, a list of strings, or `None` after an exception. */
  datatype Recalled = Scalar(v: Value) | Lines(items: seq<string>) | Failed

  /** Python's `not result` for the value `recall` built. */
  predicate Falsy(r: Recalled) {
    match r
    case Scalar(v) => !Truthy(v)
    case Lines(items) => items == []
    case Failed => false
  }

  function Unfiltered(t: Tables, tg: int, f: FieldArg): Recalled {
    match ReservedColumn(f)
    case Some(c) => Scalar(if tg in t.users then ColumnValue(t.users[tg], c) else Null)
    case None =>
      if f == Key("id") then Lines(IdLines(RowsOf(t, tg)))
      else match DataLines(RowsOf(t, tg))
        case None => Failed
        case Some(ls) => Lines(ls)
  }

  /** recall(tg, f) (db.py:66-96). */
  function RecallOf(t: Tables, tg: int, f: FieldArg): Recalled {
    var raw := Unfiltered(t, tg, f);
    if Falsy(raw) then Lines([EmptyMemory]) else raw
  }

  // ------------------------------------------------------ state transitions

  /** The result of an operation that may raise: the tables afterwards, and whether it raised. */
  datatype Step = Step(after: Tables, raised: bool)

  /**
   * remember(tg, v, f) (db.py:30-61). The INSERT into `users` takes the next
   * value of the users sequence even when the row exists (ON CONFLICT DO
   * NOTHING is decided after the default is computed), and raises once the
   * SMALLSERIAL sequence is exhausted. That INSERT is committed before the
   * second statement runs.
   */
  function RememberStep(t: Tables, tg: int, v: Value, f: FieldArg): Step {
    if t.userSeq > SmallSerialMax then Step(t, true)
    else
      var users := if tg in t.users then t.users else t.users[tg := UserRow(t.userSeq, Null, Null, Null, Null)];
      var t1 := t.(users := users, userSeq := t.userSeq + 1);
      match ReservedColumn(f)
      case Some(c) => Step(t1.(users := users[tg := WithColumn(users[tg], c, v)]), false)
      case None =>
        if t1.memorySeq > SmallSerialMax then Step(t1, true)
        else Step(t1.(memory := t1.memory + [MemoryRow(t1.memorySeq, users[tg].id, AsText(v))],
                      memorySeq := t1.memorySeq + 1), false)
  }

  /** The id `WHERE id = %s` compares with, or `None` when PostgreSQL rejects the parameter. */
  function DataIdOf(dataId: Value): Option<int> {
    match dataId
    case Int(i) => Some(i)
    case Text(s) => PgSmallint(s)
    case Null => None
  }

  /** forget(tg, dataId) (db.py:99-116); a falsy `dataId` deletes all of the user's rows. */
  function ForgetStep(t: Tables, tg: int, dataId: Value): Step {
    if !Truthy(dataId) then
      match OwnerOf(t, tg)
      case None => Step(t, false)
      case Some(o) => Step(t.(memory := Select(t.memory, NotOwnedBy(o))), false)
    else
      match DataIdOf(dataId)
      case None => Step(t, true)
      case Some(id) =>
        match OwnerOf(t, tg)
        case None => Step(t, false)
        case Some(o) => Step(t.(memory := Select(t.memory, NotRow(o, id))), false)
  }

  /** forget_name(tg) (db.py:119-128). */
  function ForgetNameStep(t: Tables, tg: int): Tables {
    if tg in t.users then t.(users := t.users[tg := t.users[tg].(name := Null)]) else t
  }

  // ------------------------------------------------------ what they promise

  lemma RememberKeepsValid(t: Tables, tg: int, v: Value, f: FieldArg)
    requires ValidTables(t)
    ensures ValidTables(RememberStep(t, tg, v, f).after)
  {
    var s := RememberStep(t, tg, v, f);
    if !s.raised && ReservedColumn(f).None? {
      AppendKeepsIds(t.memory, t.memorySeq, s.after.memory[|t.memory|]);
    }
  }

  /** Appending a row with the next sequence value keeps the ids increasing and below the sequence. */
  lemma AppendKeepsIds(rows: seq<MemoryRow>, next: int, r: MemoryRow)
    requires IdsIncreasing(rows) && forall i :: 0 <= i < |rows| ==> 1 <= rows[i].id < next
    requires r.id == next && 1 <= next
    ensures IdsIncreasing(rows + [r])
    ensures forall i :: 0 <= i < |rows + [r]| ==> 1 <= (rows + [r])[i].id < next + 1
  {
    var m := rows + [r];
    assert forall i :: 0 <= i < |rows| ==> m[i] == rows[i];
  }

  lemma ForgetKeepsValid(t: Tables, tg: int, dataId: Value)
    requires ValidTables(t)
    ensures ValidTables(ForgetStep(t, tg, dataId).after)
  {
    var s := ForgetStep(t, tg, dataId);
    if s.after.memory != t.memory {
      var o := t.users[tg].id;
      var w := if !Truthy(dataId) then NotOwnedBy(o) else NotRow(o, DataIdOf(dataId).value);
      assert s.after.memory == Select(t.memory, w);
      SelectKeepsOrder(t.memory, w);
      forall i | 0 <= i < |s.after.memory| ensures 1 <= s.after.memory[i].id < t.memorySeq {
        assert s.after.memory[i] in t.memory;
      }
    }
  }

  /**
   * Whatever the field, a remember that does not raise leaves exactly one
   * `users` row for `tg` and no other row is created or changed apart from
   * the reserved column being written.
   */
  lemma RememberEnsuresUserRow(t: Tables, tg: int, v: Value, f: FieldArg)
    requires ValidTables(t)
    requires t.userSeq <= SmallSerialMax
    ensures var a := RememberStep(t, tg, v, f).after;
      && tg in a.users
      && a.users.Keys == t.users.Keys + {tg}
      && (tg in t.users ==> a.users[tg].id == t.users[tg].id)
      && (forall u :: u in t.users && u != tg ==> a.users[u] == t.users[u])
      && a.userSeq == t.userSeq + 1
  {
  }

  /** Repeated remember calls never add a second row for the same user. */
  lemma {:induction false} RememberNeverDuplicatesUsers(t: Tables, tg: int, v1: Value, f1: FieldArg, v2: Value, f2: FieldArg)
    requires ValidTables(t) && t.userSeq + 1 <= SmallSerialMax
    ensures var a := RememberStep(RememberStep(t, tg, v1, f1).after, tg, v2, f2).after;
      a.users.Keys == t.users.Keys + {tg}
  {
    var a1 := RememberStep(t, tg, v1, f1).after;
    RememberEnsuresUserRow(t, tg, v1, f1);
    RememberKeepsValid(t, tg, v1, f1);
    RememberEnsuresUserRow(a1, tg, v2, f2);
  }

  /**
   * A remember of a reserved field overwrites only that column of the
   * user's row; recall of the field then gives the value back (or the
   * sentinel, when the value is falsy); the memory table is unchanged.
   */
  lemma RememberReservedThenRecall(t: Tables, tg: int, v: Value, f: FieldArg)
    requires ValidTables(t) && t.userSeq <= SmallSerialMax
    requires ReservedColumn(f).Some?
    ensures var s := RememberStep(t, tg, v, f);
      && !s.raised
      && s.after.memory == t.memory && s.after.memorySeq == t.memorySeq
      && RecallOf(s.after, tg, f) == (if Truthy(v) then Scalar(v) else Lines([EmptyMemory]))
      && (forall d :: d != ReservedColumn(f).value ==>
            ColumnValue(s.after.users[tg], d) == (if tg in t.users then ColumnValue(t.users[tg], d) else Null))
  {
  }

  /**
   * A remember of any other field appends one row with a fresh id and the
   * value as its data, with no duplicate check; earlier rows are kept.
   */
  lemma RememberOtherAppends(t: Tables, tg: int, v: Value, f: FieldArg)
    requires ValidTables(t) && t.userSeq <= SmallSerialMax && t.memorySeq <= SmallSerialMax
    requires ReservedColumn(f).None?
    ensures var s := RememberStep(t, tg, v, f);
      && !s.raised
      && s.after.memory == t.memory + [MemoryRow(t.memorySeq, s.after.users[tg].id, AsText(v))]
      && (forall i :: 0 <= i < |t.memory| ==> t.memory[i].id < t.memorySeq)
      && s.after.users[tg] == (if tg in t.users then t.users[tg] else UserRow(t.userSeq, Null, Null, Null, Null))
  {
  }

  /** The same value remembered twice gives two rows with distinct ids and equal data. */
  lemma {:induction false} RememberTwiceTwoRows(t: Tables, tg: int, v: Value)
    requires ValidTables(t) && t.userSeq + 1 <= SmallSerialMax && t.memorySeq + 1 <= SmallSerialMax
    ensures var a := RememberStep(RememberStep(t, tg, v, NoField).after, tg, v, NoField).after;
      && |a.memory| == |t.memory| + 2
      && a.memory[|t.memory|].data == a.memory[|t.memory| + 1].data == AsText(v)
      && a.memory[|t.memory|].id != a.memory[|t.memory| + 1].id
      && a.memory[|t.memory|].owner == a.memory[|t.memory| + 1].owner
  {
    var a1 := RememberStep(t, tg, v, NoField).after;
    RememberOtherAppends(t, tg, v, NoField);
    RememberKeepsValid(t, tg, v, NoField);
    RememberOtherAppends(a1, tg, v, NoField);
  }

  /** recall of a reserved field for a user without a row gives the sentinel. */
  lemma RecallReservedAbsentUser(t: Tables, tg: int, f: FieldArg)
    requires ReservedColumn(f).Some? && tg !in t.users
    ensures RecallOf(t, tg, f) == Lines([EmptyMemory])
  {
  }

  /** Every falsy result is replaced by the one-element sentinel list, and only those. */
  lemma RecallFalsyIsSentinel(t: Tables, tg: int, f: FieldArg)
    ensures Falsy(Unfiltered(t, tg, f)) <==> RecallOf(t, tg, f) == Lines([EmptyMemory]) && Unfiltered(t, tg, f) != Lines([EmptyMemory])
    ensures !Falsy(RecallOf(t, tg, f))
  {
  }

  /**
   * recall(tg, 'id') lists exactly the ids (as strings) of tg's rows, or the
   * sentinel when there are none; it never fails.
   */
  lemma RecallIds(t: Tables, tg: int, s: string)
    ensures RecallOf(t, tg, Key("id")).Lines?
    ensures RowsOf(t, tg) == [] ==> RecallOf(t, tg, Key("id")) == Lines([EmptyMemory])
    ensures RowsOf(t, tg) != [] ==>
      (s in RecallOf(t, tg, Key("id")).items <==>
       exists r :: r in RowsOf(t, tg) && s == NatToString(r.id))
  {
    var rows := RowsOf(t, tg);
    var ids := IdLines(rows);
    if rows != [] && s in ids {
      var k :| 0 <= k < |ids| && ids[k] == s;
      assert rows[k] in rows;
    }
  }

  /**
   * recall(tg) with any other non-reserved field gives the user's rows as
   * "id: data" strings; it fails exactly when one of them has NULL data.
   */
  lemma RecallData(t: Tables, tg: int, f: FieldArg)
    requires ReservedColumn(f).None? && f != Key("id")
    ensures RecallOf(t, tg, f).Failed? <==> exists r :: r in RowsOf(t, tg) && r.data.None?
    ensures RecallOf(t, tg, f).Lines? && RowsOf(t, tg) != [] ==>
      forall l :: l in RecallOf(t, tg, f).items <==> exists r :: r in RowsOf(t, tg) && r.data.Some? && l == DataLine(r)
  {
    var rows := RowsOf(t, tg);
    DataLinesFail(rows);
    if DataLines(rows).Some? && rows != [] {
      DataLinesMembers(rows);
    }
  }

  /** The data lines fail exactly when some row has NULL data. */
  lemma DataLinesFail(rows: seq<MemoryRow>)
    ensures DataLines(rows).None? <==> exists r :: r in rows && r.data.None?
  {
    if exists r :: r in rows && r.data.None? {
      var r :| r in rows && r.data.None?;
      var k :| 0 <= k < |rows| && rows[k] == r;
    }
  }

  /** Without a NULL, the lines are exactly the rows' "id: data" strings. */
  lemma DataLinesMembers(rows: seq<MemoryRow>)
    requires DataLines(rows).Some?
    ensures forall l :: l in DataLines(rows).value <==> exists r :: r in rows && r.data.Some? && l == DataLine(r)
  {
    var d := DataLines(rows).value;
    forall l ensures l in d <==> exists r :: r in rows && r.data.Some? && l == DataLine(r) {
      if l in d {
        var k :| 0 <= k < |d| && d[k] == l;
        assert rows[k] in rows;
      }
      if exists r :: r in rows && r.data.Some? && l == DataLine(r) {
        var r :| r in rows && r.data.Some? && l == DataLine(r);
        var k :| 0 <= k < |rows| && rows[k] == r;
        assert d[k] == l;
      }
    }
  }

  /**
   * forget without an id deletes every memory row of the user and nothing
   * else; `users`, including the name, is untouched; it never raises.
   */
  lemma ForgetAll(t: Tables, tg: int)
    ensures var s := ForgetStep(t, tg, Null);
      && !s.raised
      && s.after.users == t.users && s.after.userSeq == t.userSeq && s.after.memorySeq == t.memorySeq
      && RowsOf(s.after, tg) == []
      && (tg in t.users ==> forall x :: x in s.after.memory <==> x in t.memory && x.owner != t.users[tg].id)
      && (tg !in t.users ==> s.after == t)
  {
    FirstMember(RowsOf(ForgetStep(t, tg, Null).after, tg));
  }

  lemma FirstMember(r: seq<MemoryRow>)
    ensures r == [] || r[0] in r
  {
  }

  /** After forgetting everything, recall(tg, 'id') is the sentinel. */
  lemma ForgetAllThenRecall(t: Tables, tg: int)
    ensures RecallOf(ForgetStep(t, tg, Null).after, tg, Key("id")) == Lines([EmptyMemory])
    ensures RecallOf(ForgetStep(t, tg, Null).after, tg, Key("name")) == RecallOf(t, tg, Key("name"))
  {
    ForgetAll(t, tg);
  }

  /**
   * forget with an id deletes only the row with that id that belongs to the
   * user; other users' rows and all other rows stay, in order.
   */
  lemma ForgetOne(t: Tables, tg: int, id: nat)
    requires ValidTables(t) && tg in t.users && id != 0
    ensures var s := ForgetStep(t, tg, Int(id));
      && !s.raised && s.after.users == t.users
      && (forall x :: x in s.after.memory <==> x in t.memory && !(x.id == id && x.owner == t.users[tg].id))
      && |s.after.memory| >= |t.memory| - 1
  {
    var w := NotRow(t.users[tg].id, id);
    assert ForgetStep(t, tg, Int(id)) == Step(t.(memory := Select(t.memory, w)), false);
    AtMostOneDropped(t.memory, t.users[tg].id, id);
  }

  lemma {:induction false} SelectAllKept(rows: seq<MemoryRow>, w: Where)
    requires forall k :: 0 <= k < |rows| ==> Holds(w, rows[k])
    ensures Select(rows, w) == rows
  {
    if rows != [] {
      SelectAllKept(rows[..|rows| - 1], w);
      assert rows == rows[..|rows| - 1] + [rows[|rows| - 1]];
    }
  }

  /** Ids are unique, so deleting by id and owner removes at most one row. */
  lemma {:induction false} AtMostOneDropped(rows: seq<MemoryRow>, o: nat, id: int)
    requires IdsIncreasing(rows)
    ensures |Select(rows, NotRow(o, id))| >= |rows| - 1
  {
    if rows != [] {
      var n := |rows| - 1;
      var w := NotRow(o, id);
      if Holds(w, rows[n]) {
        AtMostOneDropped(rows[..n], o, id);
      } else {
        SelectAllKept(rows[..n], w);
      }
    }
  }

  /** `if not data_id`: an id of 0 is falsy, so forget(tg, 0) deletes all of the user's rows. */
  lemma ForgetZeroDeletesAll(t: Tables, tg: int)
    ensures ForgetStep(t, tg, Int(0)) == ForgetStep(t, tg, Null)
    ensures ForgetStep(t, tg, Text("")) == ForgetStep(t, tg, Null)
  {
  }

  /** A string id that PostgreSQL cannot read as a smallint makes forget raise and change nothing. */
  lemma ForgetBadIdRaises(t: Tables, tg: int, s: string)
    requires s != "" && PgSmallint(s).None?
    ensures ForgetStep(t, tg, Text(s)) == Step(t, true)
  {
  }

  /** forget_name clears only the name column. */
  lemma ForgetNameClearsName(t: Tables, tg: int)
    requires tg in t.users
    ensures var a := ForgetNameStep(t, tg);
      && RecallOf(a, tg, Key("name")) == Lines([EmptyMemory])
      && a.memory == t.memory
      && (forall d :: d != NameColumn ==> ColumnValue(a.users[tg], d) == ColumnValue(t.users[tg], d))
  {
  }

  // --------------------------------------------------------------- the store

  /** The database connection: both tables, updated in place. */
  class Db {
    var users: map<int, UserRow>
    var memory: seq<MemoryRow>
    var userSeq: nat
    var memorySeq: nat

    function Snapshot(): Tables
      reads this
    {
      Tables(users, memory, userSeq, memorySeq)
    }

    predicate Valid()
      reads this
    {
      ValidTables(Snapshot())
    }

    /** Freshly created tables (recreate_schema.py). */
    constructor ()
      ensures Valid() && Snapshot() == EmptyTables
    {
      users, memory, userSeq, memorySeq := map[], [], 1, 1;
    }

    method Remember(tg: int, v: Value, f: FieldArg) returns (raised: bool)
      requires Valid()
      modifies this
      ensures Valid()
      ensures Step(Snapshot(), raised) == RememberStep(old(Snapshot()), tg, v, f)
    {
      RememberKeepsValid(Snapshot(), tg, v, f);
      if userSeq > SmallSerialMax {
        return true;
      }
      if tg !in users {
        users := users[tg := UserRow(userSeq, Null, Null, Null, Null)];
      }
      userSeq := userSeq + 1;
      var col := ReservedColumn(f);
      if col.Some? {
        users := users[tg := WithColumn(users[tg], col.value, v)];
        raised := false;
      } else if memorySeq > SmallSerialMax {
        raised := true;
      } else {
        memory := memory + [MemoryRow(memorySeq, users[tg].id, AsText(v))];
        memorySeq := memorySeq + 1;
        raised := false;
      }
    }

    method Recall(tg: int, f: FieldArg) returns (r: Recalled)
      ensures r == RecallOf(Snapshot(), tg, f)
    {
      var result: Recalled;
      var col := ReservedColumn(f);
      if col.Some? {
        result := Scalar(if tg in users then ColumnValue(users[tg], col.value) else Null);
      } else {
        var data := RowsOf(Snapshot(), tg);
        if f == Key("id") {
          var lines := ListIds(data);
          result := Lines(lines);
        } else {
          var lines := ListData(data);
          result := if lines.None? then Failed else Lines(lines.value);
        }
      }
      if Falsy(result) {
        r := Lines([EmptyMemory]);
      } else {
        r := result;
      }
    }

    /** The `for i in data: result.append(str(i[0]))` loop. */
    static method ListIds(data: seq<MemoryRow>) returns (lines: seq<string>)
      ensures lines == IdLines(data)
    {
      lines := [];
      var i := 0;
      while i < |data|
        invariant 0 <= i <= |data|
        invariant lines == IdLines(data[..i])
      {
        assert data[..i + 1][..i] == data[..i];
        lines := lines + [NatToString(data[i].id)];
        i := i + 1;
      }
      assert data[..i] == data;
    }

    /** The `result.append(str(i[0]) + ': ' + i[1])` loop; `None` when it raises. */
    static method ListData(data: seq<MemoryRow>) returns (lines: Option<seq<string>>)
      ensures lines == DataLines(data)
    {
      var acc: seq<string> := [];
      var i := 0;
      while i < |data|
        invariant 0 <= i <= |data|
        invariant DataLines(data[..i]) == Some(acc)
      {
        assert data[..i + 1][..i] == data[..i];
        if data[i].data.None? {
          assert data[i] == data[..i + 1][i];
          assert DataLines(data).None?;
          return None;
        }
        acc := acc + [DataLine(data[i])];
        i := i + 1;
      }
      assert data[..i] == data;
      lines := Some(acc);
    }

    method Forget(tg: int, dataId: Value) returns (raised: bool)
      requires Valid()
      modifies this
      ensures Valid()
      ensures Step(Snapshot(), raised) == ForgetStep(old(Snapshot()), tg, dataId)
    {
      ForgetKeepsValid(Snapshot(), tg, dataId);
      raised := false;
      if !Truthy(dataId) {
        if tg in users {
          memory := Select(memory, NotOwnedBy(users[tg].id));
        }
      } else {
        var id := DataIdOf(dataId);
        if id.None? {
          raised := true;
        } else if tg in users {
          memory := Select(memory, NotRow(users[tg].id, id.value));
        }
      }
    }

    method ForgetName(tg: int)
      requires Valid()
      modifies this
      ensures Valid()
      ensures Snapshot() == ForgetNameStep(old(Snapshot()), tg)
    {
      if tg in users {
        users := users[tg := users[tg].(name := Null)];
      }
    }
  }
}
