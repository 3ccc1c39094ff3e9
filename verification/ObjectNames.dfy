/**
 Full names of objects: the path of the database, a colon, the short name
 (src/storage/cpp/data_service.h).
 */
module ObjectNames {

  type Db = string
  type Name = string

  /** Position of the last colon, or -1. */
  function LastColon(s: string): (p: int)
    ensures -1 <= p < |s|
    ensures p >= 0 ==> s[p] == ':'
    ensures forall i :: p < i < |s| ==> s[i] != ':'
  {
    if s == "" then -1
    else if s[|s| - 1] == ':' then |s| - 1
    else LastColon(s[..|s| - 1])
  }

  /** Database and short name of an object; both empty if there is no colon. */
  function SplitFullName(full: string): (Db, Name) {
    var p := LastColon(full);
    if p < 0 then ("", "") else (full[..p], full[p + 1..])
  }

  function FullName(db: Db, name: Name): string { db + ":" + name }

  /** Whatever has no colon names no object of any database. */
  lemma {:induction false} NoColonNoObject(full: string)
    ensures SplitFullName(full) == ("", "") <==> ':' !in full || full == ":"
    ensures ':' in full ==> FullName(SplitFullName(full).0, SplitFullName(full).1) == full
  {
  }

  /** Splitting undoes joining exactly when the short name has no colon. */
  lemma {:induction false} SplitOfFullName(db: Db, name: Name)
    ensures SplitFullName(FullName(db, name)) == (db, name) <==> ':' !in name
  {
    var full := FullName(db, name);
    var p := LastColon(full);
    assert full[|db|] == ':';
    assert forall i :: 0 <= i < |name| ==> full[|db| + 1 + i] == name[i];
    if ':' in name {
      var i :| 0 <= i < |name| && name[i] == ':';
      assert full[|db| + 1 + i] == ':';
      assert p >= |db| + 1 + i;
      assert |SplitFullName(full).0| == p;
    } else {
      assert p == |db|;
      assert full[..p] == db && full[p + 1..] == name;
    }
  }
}
