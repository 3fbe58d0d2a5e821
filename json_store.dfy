/**
 * The JSON file store of memory.py: storage.json holds an object whose keys
 * are user ids written as strings and whose values are per-user objects of
 * field/value pairs. Each operation loads the file, changes the dictionary
 * in place and writes it back.
 */
module JsonStore {
  import opened PyText

  /** The contents of storage.json. */
  datatype StoreFile = Missing | Invalid | Present(data: map<string, map<string, Value>>)

  /** The key a user's entry is stored under: `str(user_id)`. */
  function UserKey(uid: int): string {
    IntToString(uid)
  }

  /** The dictionary save_data starts from: a missing or unreadable file counts as `{}`. */
  function LoadedForSave(f: StoreFile): map<string, map<string, Value>> {
    match f
    case Present(d) => d
    case _ => map[]
  }

  /**
   * save_data(uid, field, v) (memory.py:7-36). The user's old entry is
   * looked up with the int `uid` (memory.py:31), but every key of a loaded
   * JSON object is a string, so the lookup always yields `{}` and the entry
   * is replaced by `{field: v}`.
   */
  function Saved(f: StoreFile, uid: int, field: string, v: Value): StoreFile {
    var data := LoadedForSave(f);
    var userData: map<string, Value> := map[];
    Present(data[UserKey(uid) := userData[field := v]])
  }

  /** get_data(uid, field) (memory.py:39-57): `None` for a missing or invalid file, user or field. */
  function Lookup(f: StoreFile, uid: int, field: string): Value {
    match f
    case Present(d) =>
      if UserKey(uid) in d && field in d[UserKey(uid)] then d[UserKey(uid)][field] else Null
    case _ => Null
  }

  /** Python's `if field:` on the optional field name. */
  predicate FieldGiven(field: Option<string>) {
    field.Some? && field.value != ""
  }

  /**
   * delete_data(uid, field) (memory.py:60-78): removes one field, or the
   * whole entry when no (or an empty) field is given; a missing or invalid
   * file is left alone.
   */
  function Deleted(f: StoreFile, uid: int, field: Option<string>): StoreFile {
    match f
    case Present(d) =>
      var k := UserKey(uid);
      if k !in d then f
      else if FieldGiven(field) then Present(d[k := d[k] - {field.value}])
      else Present(d - {k})
    case _ => f
  }

  // ------------------------------------------------------ what they promise

  /** What save_data stores, get_data returns. */
  lemma SaveThenGet(f: StoreFile, uid: int, field: string, v: Value)
    ensures Lookup(Saved(f, uid, field, v), uid, field) == v
  {
  }

  /** The user's entry becomes exactly `{field: v}`: every other field of that user is dropped. */
  lemma SaveReplacesEntry(f: StoreFile, uid: int, field: string, v: Value, other: string)
    requires other != field
    ensures Saved(f, uid, field, v).data[UserKey(uid)] == map[field := v]
    ensures Lookup(Saved(f, uid, field, v), uid, other) == Null
  {
  }

  /** Other users' entries are unchanged by save_data. */
  lemma SaveKeepsOtherUsers(f: StoreFile, uid: int, field: string, v: Value, u: int, g: string)
    requires u != uid
    ensures Lookup(Saved(f, uid, field, v), u, g) == Lookup(f, u, g)
  {
    IntToStringInjective(u, uid);
  }

  /** An unreadable store is replaced by a fresh structure holding only the new field. */
  lemma SaveOnUnreadable(f: StoreFile, uid: int, field: string, v: Value)
    requires f.Missing? || f.Invalid?
    ensures Saved(f, uid, field, v) == Present(map[UserKey(uid) := map[field := v]])
  {
  }

  /** get_data never fails: a missing or invalid file reads as `None`. */
  lemma GetUnreadable(f: StoreFile, uid: int, field: string)
    requires f.Missing? || f.Invalid?
    ensures Lookup(f, uid, field) == Null
  {
  }

  /** Deleting a field removes only that key from that user's entry. */
  lemma DeleteField(f: StoreFile, uid: int, field: string, g: string)
    requires field != ""
    ensures Lookup(Deleted(f, uid, Some(field)), uid, field) == Null
    ensures g != field ==> Lookup(Deleted(f, uid, Some(field)), uid, g) == Lookup(f, uid, g)
  {
  }

  /** Deleting without a field (or with an empty one) removes the whole entry. */
  lemma DeleteUser(f: StoreFile, uid: int, field: Option<string>)
    requires f.Present? && UserKey(uid) in f.data && !FieldGiven(field)
    ensures Deleted(f, uid, field) == Present(f.data - {UserKey(uid)})
    ensures forall g :: Lookup(Deleted(f, uid, field), uid, g) == Null
  {
  }

  /** An unknown user, a missing file or invalid JSON leaves the store unchanged. */
  lemma DeleteNoEffect(f: StoreFile, uid: int, field: Option<string>)
    requires !f.Present? || UserKey(uid) !in f.data
    ensures Deleted(f, uid, field) == f
  {
  }

  /** delete_data never touches another user's entry. */
  lemma DeleteKeepsOtherUsers(f: StoreFile, uid: int, field: Option<string>, u: int, g: string)
    requires u != uid
    ensures Lookup(Deleted(f, uid, field), u, g) == Lookup(f, u, g)
  {
    IntToStringInjective(u, uid);
  }

  // --------------------------------------------------------------- the file

  class JsonStorage {
    var file: StoreFile

    constructor (initial: StoreFile)
      ensures file == initial
    {
      file := initial;
    }

    method SaveData(uid: int, field: string, v: Value)
      modifies this
      ensures file == Saved(old(file), uid, field, v)
    {
      var data: map<string, map<string, Value>> := map[];
      if file.Present? {
        data := file.data;
      }
      var userData: map<string, Value> := map[];
      userData := userData[field := v];
      data := data[UserKey(uid) := userData];
      file := Present(data);
    }

    method GetData(uid: int, field: string) returns (r: Value)
      ensures r == Lookup(file, uid, field)
    {
      r := Null;
      if file.Present? {
        var userData: map<string, Value> := map[];
        if UserKey(uid) in file.data {
          userData := file.data[UserKey(uid)];
        }
        if field in userData {
          r := userData[field];
        }
      }
    }

    method DeleteData(uid: int, field: Option<string>)
      modifies this
      ensures file == Deleted(old(file), uid, field)
    {
      if file.Present? {
        var data := file.data;
        var k := UserKey(uid);
        if k in data {
          if FieldGiven(field) {
            data := data[k := data[k] - {field.value}];
          } else {
            data := data - {k};
          }
        }
        file := Present(data);
      }
    }
  }
}
