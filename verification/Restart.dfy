/**
 Restarting failed tasks from their file (src/agent/cpp/master_agent.cpp).

 A record keeps the task as it was submitted, with database paths of that time. A restart looks
 every database up by its uid, rewrites arguments and object names to the current paths, removes
 the file and submits the records again; or it does nothing at all.
 */
module Restart {
  import opened Common
  import opened ObjectNames

  /** What a record holds of a submission; hash is the write context hash. */
  datatype Record = Record(id: nat, args: seq<string>, inputs: seq<string>, vars: seq<string>, outputs: seq<string>,
                           owner: string, hash: string)

  // ---------------------------------------------------------------------------
  // Database arguments
  // ---------------------------------------------------------------------------

  const DB := "__fly_db__:"
  const DB2 := "__fly_db2__:"
  const KWARGS := "__fly_kwargs__:"

  predicate StartsWith(s: string, prefix: string) { |s| >= |prefix| && s[..|prefix|] == prefix }

  /** First colon at or after a position, or the length. */
  function NextColon(s: string, from: nat): (p: nat)
    requires from <= |s|
    ensures from <= p <= |s|
    ensures p < |s| ==> s[p] == ':'
    ensures forall i :: from <= i < p ==> s[i] != ':'
    decreases |s| - from
  {
    if from == |s| || s[from] == ':' then from else NextColon(s, from + 1)
  }

  /** Segments between the first colons, at most one more than limit. */
  function Segments(s: string, limit: nat): seq<string>
    decreases limit
  {
    var p := NextColon(s, 0);
    if limit == 0 || p == |s| then [s] else [s[..p]] + Segments(s[p + 1..], limit - 1)
  }

  /** Database path of an argument, empty for other arguments. */
  function ParseDbArg(arg: string): string {
    if StartsWith(arg, DB) then
      var parts := Segments(arg[|DB|..], 3);
      if |parts| == 4 then parts[2] else if |parts| >= 2 then parts[1] else ""
    else if StartsWith(arg, DB2) then
      var rest := arg[|DB2|..];
      var p := NextColon(rest, 0);
      if p == |rest| then rest else rest[p + 1..]
    else ""
  }

  /** uid and path; the oldest form has no uid. */
  function ParseDbArgUid(arg: string): (r: (string, string))
    ensures ':' !in r.0
  {
    if StartsWith(arg, DB2) then
      var rest := arg[|DB2|..];
      var p := NextColon(rest, 0);
      if p == |rest| then ("", "") else (rest[..p], rest[p + 1..])
    else
      var path := ParseDbArg(arg);
      if path == "" || !StartsWith(arg, DB) then ("", "")
      else
        var rest := arg[|DB|..];
        var first := NextColon(rest, 0);
        if first == |rest| then ("", path)
        else if NextColon(rest, first + 1) == |rest| then ("", path)
        else (rest[..first], path)
  }

  function EncodeDbArg(uid: string, path: string): string { DB2 + uid + ":" + path }

  /** Parsing undoes encoding: the path may contain anything, the uid no colon. */
  lemma {:induction false} DbArgRoundTrip(uid: string, path: string)
    requires ':' !in uid
    ensures ParseDbArgUid(EncodeDbArg(uid, path)) == (uid, path)
  {
    var arg := EncodeDbArg(uid, path);
    assert arg == DB2 + (uid + ":" + path);
    assert arg[..|DB2|] == DB2;
    var rest := arg[|DB2|..];
    assert rest == uid + ":" + path;
    assert rest[|uid|] == ':' && forall i :: 0 <= i < |uid| ==> rest[i] == uid[i];
    assert NextColon(rest, 0) == |uid|;
    assert rest[..|uid|] == uid && rest[|uid| + 1..] == path;
  }

  lemma {:induction false} FirstSegment(x: string, y: string, limit: nat)
    requires ':' !in x && limit > 0
    ensures NextColon(x + ":" + y, 0) == |x| && Segments(x + ":" + y, limit) == [x] + Segments(y, limit - 1)
  {
    var s := x + ":" + y;
    assert s[|x|] == ':' && forall i :: 0 <= i < |x| ==> s[i] == x[i];
    assert NextColon(s, 0) == |x|;
    assert s[..|x|] == x && s[|x| + 1..] == y;
  }

  lemma {:induction false} OnlySegment(x: string, limit: nat)
    requires ':' !in x
    ensures NextColon(x, 0) == |x| && Segments(x, limit) == [x]
  {
  }

  function EncodeOldDbArg(uid: string, path: string, data: string): string { DB + uid + ":" + path + ":" + data }

  function FirstOf(data: string): string { data[..NextColon(data, 0)] }

  lemma {:induction false} OldSegments(uid: string, path: string, data: string)
    requires ':' !in uid && ':' !in path
    ensures var rest := uid + ":" + (path + ":" + data);
            && EncodeOldDbArg(uid, path, data) == DB + rest
            && Segments(rest, 3) == [uid, path] + Segments(data, 1)
            && NextColon(rest, 0) == |uid| && NextColon(rest, |uid| + 1) < |rest|
  {
    var rest := uid + ":" + (path + ":" + data);
    FirstSegment(uid, path + ":" + data, 3);
    FirstSegment(path, data, 2);
    assert [uid] + ([path] + Segments(data, 1)) == [uid, path] + Segments(data, 1);
    assert rest[|uid| + 1 + |path|] == ':';
  }

  lemma {:induction false} DataSegments(data: string)
    ensures ':' !in data ==> Segments(data, 1) == [data]
    ensures ':' in data ==> |Segments(data, 1)| == 2 && Segments(data, 1)[0] == FirstOf(data)
  {
    if ':' !in data {
      OnlySegment(data, 1);
    }
  }

  /** The old form with uid, path and data path is parsed to uid and path exactly when the data path
      has no colon, or what it has before its first colon is the path again; otherwise that part is
      taken for the path. */
  lemma {:induction false} OldDbArgParsesIff(uid: string, path: string, data: string)
    requires ':' !in uid && ':' !in path && path != ""
    ensures ParseDbArgUid(EncodeOldDbArg(uid, path, data)) == (uid, path) <==> ':' !in data || FirstOf(data) == path
    ensures ':' in data && FirstOf(data) != "" ==>
              ParseDbArgUid(EncodeOldDbArg(uid, path, data)) == (uid, FirstOf(data))
  {
    hide *;
    OldSegments(uid, path, data);
    DataSegments(data);
    ParseOldArg(EncodeOldDbArg(uid, path, data), uid, path, data);
  }

  lemma {:induction false} ParseOldArg(arg: string, uid: string, path: string, data: string)
    requires var rest := uid + ":" + (path + ":" + data);
             && arg == DB + rest && Segments(rest, 3) == [uid, path] + Segments(data, 1)
             && NextColon(rest, 0) == |uid| && NextColon(rest, |uid| + 1) < |rest|
    requires path != "" && (if ':' in data then |Segments(data, 1)| == 2 else |Segments(data, 1)| == 1)
    ensures ':' !in data ==> ParseDbArgUid(arg) == (uid, path)
    ensures ':' in data ==>
              ParseDbArgUid(arg) == if Segments(data, 1)[0] == "" then ("", "") else (uid, Segments(data, 1)[0])
  {
    hide Segments, NextColon;
    var rest := uid + ":" + (path + ":" + data);
    assert arg[..|DB|] == DB && arg[|DB|..] == rest;
    assert DB[8] != DB2[8] && arg[8] == DB[8];
    assert !StartsWith(arg, DB2);
    assert rest[..|uid|] == uid;
  }

  /** Of the oldest form, path and data path without a uid, the data path is taken for the path; the
      missing uid makes a restart refuse the file. */
  lemma {:induction false} OldestDbArgIsRefused(path: string, data: string, index: map<string, string>)
    requires ':' !in path && ':' !in data && data != ""
    ensures var arg := DB + (path + ":" + data);
            ParseDbArgUid(arg) == ("", data) && IsDbArg(arg) && !Resolves(index, arg)
  {
    hide *;
    var rest := path + ":" + data;
    FirstSegment(path, data, 3);
    OnlySegment(data, 2);
    assert [path] + [data] == [path, data];
    NoSecondColon(path, data);
    ParseOldestArg(rest, path, data, index);
  }

  lemma {:induction false} NoSecondColon(path: string, data: string)
    requires ':' !in data
    ensures var rest := path + ":" + data; NextColon(rest, |path| + 1) == |rest|
  {
    var rest := path + ":" + data;
    assert forall i :: |path| < i < |rest| ==> rest[i] == data[i - |path| - 1] && rest[i] in data;
  }

  lemma {:induction false} ParseOldestArg(rest: string, path: string, data: string, index: map<string, string>)
    requires rest == path + ":" + data && Segments(rest, 3) == [path, data] && data != ""
    requires NextColon(rest, 0) == |path| && NextColon(rest, |path| + 1) == |rest|
    ensures ParseDbArgUid(DB + rest) == ("", data) && IsDbArg(DB + rest) && !Resolves(index, DB + rest)
  {
    hide Segments, NextColon;
    var arg := DB + rest;
    assert arg[..|DB|] == DB && arg[|DB|..] == rest;
    assert DB[8] != DB2[8] && arg[8] == DB[8];
    assert !StartsWith(arg, DB2);
  }

  // ---------------------------------------------------------------------------
  // Checks
  // ---------------------------------------------------------------------------

  predicate HasKwargs(r: Record) { r.args != [] && StartsWith(r.args[|r.args| - 1], KWARGS) }

  predicate IsDbArg(arg: string) { ParseDbArgUid(arg).1 != "" }

  predicate Resolves(index: map<string, string>, arg: string) {
    IsDbArg(arg) ==> var uid := ParseDbArgUid(arg).0; uid != "" && uid in index && index[uid] != ""
  }

  ghost predicate AllResolve(index: map<string, string>, rs: seq<Record>) {
    forall i, j :: 0 <= i < |rs| && 0 <= j < |rs[i].args| ==> Resolves(index, rs[i].args[j])
  }

  ghost predicate AllHaveKwargs(rs: seq<Record>) {
    forall i :: 0 <= i < |rs| ==> HasKwargs(rs[i])
  }

  // ---------------------------------------------------------------------------
  // The rewrite
  // ---------------------------------------------------------------------------

  /** One argument's contribution to the map from old to current paths. */
  function Move(index: map<string, string>, arg: string, m: map<string, string>): map<string, string>
    requires Resolves(index, arg)
  {
    if !IsDbArg(arg) then m
    else
      var (uid, path) := ParseDbArgUid(arg);
      if index[uid] != path then m[path := index[uid]] else m
  }

  ghost function Moves(index: map<string, string>, args: seq<string>, m: map<string, string>): map<string, string>
    requires forall j :: 0 <= j < |args| ==> Resolves(index, args[j])
    decreases |args|
  {
    if args == [] then m else Move(index, args[|args| - 1], Moves(index, args[..|args| - 1], m))
  }

  ghost function AllMoves(index: map<string, string>, rs: seq<Record>): map<string, string>
    requires AllResolve(index, rs)
    decreases |rs|
  {
    if rs == [] then map[]
    else
      var last := rs[|rs| - 1];
      assert forall j :: 0 <= j < |last.args| ==> Resolves(index, last.args[j]);
      Moves(index, last.args, AllMoves(index, rs[..|rs| - 1]))
  }

  function RewriteArg(index: map<string, string>, arg: string): string
    requires Resolves(index, arg)
  {
    if IsDbArg(arg) then
      var uid := ParseDbArgUid(arg).0;
      EncodeDbArg(uid, index[uid])
    else arg
  }

  /** Replace the database part of a full object name, looked up once in the map. */
  function Rename(m: map<string, string>, full: string): string {
    var p := LastColon(full);
    if p <= 0 then full
    else if full[..p] in m then m[full[..p]] + full[p..]
    else full
  }

  ghost function RenameAll(m: map<string, string>, names: seq<string>): (r: seq<string>)
    ensures |r| == |names| && forall i :: 0 <= i < |r| ==> r[i] == Rename(m, names[i])
  {
    seq(|names|, i requires 0 <= i < |names| => Rename(m, names[i]))
  }

  ghost function RewriteArgs(index: map<string, string>, args: seq<string>): (r: seq<string>)
    requires forall j :: 0 <= j < |args| ==> Resolves(index, args[j])
    ensures |r| == |args| && forall j :: 0 <= j < |r| ==> r[j] == RewriteArg(index, args[j])
  {
    seq(|args|, j requires 0 <= j < |args| => RewriteArg(index, args[j]))
  }

  /** The owner of a task is the database the file lies in, unless the task had none. */
  ghost function RewriteRecord(index: map<string, string>, m: map<string, string>, dir: string, r: Record): Record
    requires forall j :: 0 <= j < |r.args| ==> Resolves(index, r.args[j])
  {
    r.(args := RewriteArgs(index, r.args), inputs := RenameAll(m, r.inputs), vars := RenameAll(m, r.vars),
       outputs := RenameAll(m, r.outputs), owner := if r.owner == "" then "" else dir)
  }

  ghost function Rewrite(index: map<string, string>, dir: string, rs: seq<Record>): (r: seq<Record>)
    requires AllResolve(index, rs)
    ensures |r| == |rs|
  {
    seq(|rs|, i requires 0 <= i < |rs| => RewriteRecord(index, AllMoves(index, rs), dir, rs[i]))
  }

  // ---------------------------------------------------------------------------
  // Where things end up
  // ---------------------------------------------------------------------------

  /** A rewritten database argument names its uid's current path. */
  lemma {:induction false} ArgAtCurrentPath(index: map<string, string>, arg: string)
    requires Resolves(index, arg)
    ensures IsDbArg(arg) ==>
              ParseDbArgUid(RewriteArg(index, arg)) == (ParseDbArgUid(arg).0, index[ParseDbArgUid(arg).0])
    ensures IsDbArg(arg) <==> IsDbArg(RewriteArg(index, arg))
    ensures Resolves(index, RewriteArg(index, arg))
  {
    if IsDbArg(arg) {
      var uid := ParseDbArgUid(arg).0;
      DbArgRoundTrip(uid, index[uid]);
    }
  }

  /** Object names move with their database. */
  lemma {:induction false} RenameMovesDb(m: map<string, string>, db: string, name: string)
    requires ':' !in name && db != ""
    ensures Rename(m, FullName(db, name)) == FullName(if db in m then m[db] else db, name)
  {
    var full := FullName(db, name);
    SplitOfFullName(db, name);
    var p := LastColon(full);
    assert full[..p] == db && full[p + 1..] == name;
    assert full[p..] == ":" + name;
    if db in m {
      assert m[db] + (":" + name) == m[db] + ":" + name;
    }
  }

  /** The substitution is simultaneous: swapped paths are swapped. */
  lemma {:induction false} SwappedPaths(a: string, b: string, x: string, y: string)
    requires a != "" && b != "" && a != b && ':' !in x && ':' !in y
    ensures var m := map[a := b, b := a];
            Rename(m, FullName(a, x)) == FullName(b, x) && Rename(m, FullName(b, y)) == FullName(a, y)
  {
    RenameMovesDb(map[a := b, b := a], a, x);
    RenameMovesDb(map[a := b, b := a], b, y);
  }

  ghost function Target(m: map<string, string>, path: string): string {
    if path in m then m[path] else path
  }

  function PathOf(arg: string): string { ParseDbArgUid(arg).1 }

  /** The current path of an argument's database. */
  function CurrentPath(index: map<string, string>, arg: string): string
    requires Resolves(index, arg) && IsDbArg(arg)
  {
    index[ParseDbArgUid(arg).0]
  }

  /** All database arguments of a file. */
  ghost predicate InFile(rs: seq<Record>, arg: string) {
    exists i, j :: 0 <= i < |rs| && 0 <= j < |rs[i].args| && rs[i].args[j] == arg && IsDbArg(arg)
  }

  /** Names follow an argument: those under its old path move to its current path. */
  ghost predicate Follow(index: map<string, string>, m: map<string, string>, arg: string) {
    IsDbArg(arg) && Resolves(index, arg) ==> Target(m, PathOf(arg)) == CurrentPath(index, arg)
  }

  /** Two databases with the same old path are in the same place now. */
  ghost predicate Agree(index: map<string, string>, a: string, b: string) {
    IsDbArg(a) && Resolves(index, a) && IsDbArg(b) && Resolves(index, b) && PathOf(a) == PathOf(b) ==>
      CurrentPath(index, a) == CurrentPath(index, b)
  }

  /** Everything in the map was put there by an argument of the file. */
  ghost predicate FromFile(index: map<string, string>, all: seq<Record>, m: map<string, string>) {
    forall p :: p in m ==>
      exists arg :: InFile(all, arg) && Resolves(index, arg) && PathOf(arg) == p && CurrentPath(index, arg) == m[p]
  }

  ghost predicate Consistent(index: map<string, string>, rs: seq<Record>) {
    forall a, b :: InFile(rs, a) && InFile(rs, b) ==> Agree(index, a, b)
  }

  lemma {:induction false} MoveFollows(index: map<string, string>, all: seq<Record>, arg: string, m: map<string,
                                       string>)
    requires Resolves(index, arg) && (IsDbArg(arg) ==> InFile(all, arg))
    requires FromFile(index, all, m) && Consistent(index, all)
    ensures FromFile(index, all, Move(index, arg, m)) && Follow(index, Move(index, arg, m), arg)
    ensures forall b :: InFile(all, b) && Follow(index, m, b) ==> Follow(index, Move(index, arg, m), b)
  {
    hide ParseDbArgUid, InFile;
    if IsDbArg(arg) {
      var p := PathOf(arg);
      if p in m {
        var b :| InFile(all, b) && Resolves(index, b) && PathOf(b) == p && CurrentPath(index, b) == m[p];
        assert Agree(index, arg, b);
      }
      forall b | InFile(all, b) && Follow(index, m, b) ensures Follow(index, Move(index, arg, m), b) {
        assert Agree(index, arg, b);
      }
    }
  }

  lemma {:induction false} MovesFollow(index: map<string, string>, all: seq<Record>, args: seq<string>,
                                       m: map<string, string>)
    requires forall j :: 0 <= j < |args| ==> Resolves(index, args[j]) && (IsDbArg(args[j]) ==> InFile(all, args[j]))
    requires FromFile(index, all, m) && Consistent(index, all)
    ensures FromFile(index, all, Moves(index, args, m))
    ensures forall j :: 0 <= j < |args| ==> Follow(index, Moves(index, args, m), args[j])
    ensures forall b :: InFile(all, b) && Follow(index, m, b) ==> Follow(index, Moves(index, args, m), b)
    decreases |args|
  {
    hide ParseDbArgUid, InFile, Consistent, FromFile, Move;
    if args != [] {
      var n := |args| - 1;
      MovesFollow(index, all, args[..n], m);
      var m1 := Moves(index, args[..n], m);
      MoveFollows(index, all, args[n], m1);
      forall j | 0 <= j < |args| ensures Follow(index, Moves(index, args, m), args[j]) {
        if j < n {
          assert args[..n][j] == args[j];
        }
      }
    }
  }

  lemma {:induction false} InFileBefore(all: seq<Record>, n: nat, b: string)
    requires 0 < n <= |all| && InFile(all[..n], b)
    ensures (InFile(all[..n - 1], b) && InFile(all, b)) || b in all[n - 1].args
  {
  }

  lemma {:induction false} NothingMoves(index: map<string, string>, all: seq<Record>)
    ensures AllResolve(index, []) && AllMoves(index, []) == map[] && FromFile(index, all, map[])
    ensures forall b :: !InFile([], b)
  {
  }

  lemma {:induction false} AllMovesFollow(index: map<string, string>, all: seq<Record>, n: nat)
    requires AllResolve(index, all) && Consistent(index, all) && n <= |all|
    ensures AllResolve(index, all[..n]) && FromFile(index, all, AllMoves(index, all[..n]))
    ensures forall b :: InFile(all[..n], b) ==> Follow(index, AllMoves(index, all[..n]), b)
    decreases n
  {
    hide ParseDbArgUid, Resolves, Moves, Follow, FromFile, Consistent;
    if n == 0 {
      NothingMoves(index, all);
    } else {
      var head, last := all[..n - 1], all[n - 1];
      AllMovesFollow(index, all, n - 1);
      assert all[..n][..n - 1] == head && all[..n][n - 1] == last;
      var m := AllMoves(index, head);
      assert forall j :: 0 <= j < |last.args| ==>
        Resolves(index, last.args[j]) && (IsDbArg(last.args[j]) ==> InFile(all, last.args[j]));
      MovesFollow(index, all, last.args, m);
      hide InFile;
      forall b | InFile(all[..n], b) ensures Follow(index, AllMoves(index, all[..n]), b) {
        InFileBefore(all, n, b);
      }
    }
  }

  ghost predicate NamesFollow(index: map<string, string>, rs: seq<Record>)
    requires AllResolve(index, rs)
  {
    forall arg :: InFile(rs, arg) ==> Follow(index, AllMoves(index, rs), arg)
  }

  /** For every database argument, names under its old path move to its current path, exactly when
      no two databases of the file that are in different places now had the same old path. */
  lemma {:induction false} NamesFollowIff(index: map<string, string>, rs: seq<Record>)
    requires AllResolve(index, rs)
    ensures NamesFollow(index, rs) <==> Consistent(index, rs)
  {
    hide ParseDbArgUid, InFile, AllMoves;
    if Consistent(index, rs) {
      AllMovesFollow(index, rs, |rs|);
      assert rs[..|rs|] == rs;
    }
    if NamesFollow(index, rs) {
      forall a, b | InFile(rs, a) && InFile(rs, b) ensures Agree(index, a, b) {
        assert Follow(index, AllMoves(index, rs), a) && Follow(index, AllMoves(index, rs), b);
      }
    }
  }

  /** Two databases of a file that had the same path and are in different places now. */
  lemma {:induction false} SamePathConfuses(index: map<string, string>, rs: seq<Record>, a: string, b: string)
    requires AllResolve(index, rs) && InFile(rs, a) && InFile(rs, b) && !Agree(index, a, b)
    ensures !NamesFollow(index, rs)
  {
  }

  lemma {:induction false} DbArgFacts(index: map<string, string>, uid: string, path: string)
    requires ':' !in uid && uid != "" && path != "" && uid in index && index[uid] != ""
    ensures var arg := EncodeDbArg(uid, path);
            IsDbArg(arg) && Resolves(index, arg) && PathOf(arg) == path && CurrentPath(index, arg) == index[uid]
  {
    DbArgRoundTrip(uid, path);
  }

  ghost function FileOf(u1: string, u2: string): seq<Record> {
    [Record(1, [u1, KWARGS], ["/a:x"], [], [], "", ""), Record(2, [u2, KWARGS], ["/a:y"], [], [], "", "")]
  }

  /** Database u1 moved from /a to /b and u2 was created at /a afterwards: names of one of them
      cannot follow. */
  lemma {:induction false} ReusedPathConfuses()
    ensures var rs := FileOf(EncodeDbArg("u1", "/a"), EncodeDbArg("u2", "/a"));
            var index := map["u1" := "/b", "u2" := "/a"];
            AllHaveKwargs(rs) && AllResolve(index, rs) && !NamesFollow(index, rs)
  {
    var index := map["u1" := "/b", "u2" := "/a"];
    assert index["u1"] == "/b" && index["u2"] == "/a" && "/a" != "/b";
    hide EncodeDbArg, ParseDbArgUid, IsDbArg, Resolves, PathOf, CurrentPath, FileOf, AllHaveKwargs, AllResolve,
      NamesFollow, InFile;
    var u1, u2 := EncodeDbArg("u1", "/a"), EncodeDbArg("u2", "/a");
    DbArgFacts(index, "u1", "/a");
    DbArgFacts(index, "u2", "/a");
    TwoRecords(index, u1, u2);
    SamePathConfuses(index, FileOf(u1, u2), u1, u2);
  }

  lemma {:induction false} TwoRecords(index: map<string, string>, u1: string, u2: string)
    requires IsDbArg(u1) && IsDbArg(u2) && Resolves(index, u1) && Resolves(index, u2)
    ensures var rs := FileOf(u1, u2);
            AllHaveKwargs(rs) && AllResolve(index, rs) && InFile(rs, u1) && InFile(rs, u2)
  {
    var rs := FileOf(u1, u2);
    NotADbArg();
    assert Resolves(index, KWARGS);
    assert HasKwargs(rs[0]) && HasKwargs(rs[1]);
    hide ParseDbArgUid, Resolves, IsDbArg, HasKwargs;
    assert rs[0].args == [u1, KWARGS] && rs[1].args == [u2, KWARGS];
    forall i, j | 0 <= i < |rs| && 0 <= j < |rs[i].args| ensures Resolves(index, rs[i].args[j]) {
      assert rs[i].args[j] == (if j == 1 then KWARGS else if i == 0 then u1 else u2);
    }
    assert rs[0].args[0] == u1 && rs[1].args[0] == u2;
  }

  lemma {:induction false} NotADbArg()
    ensures !IsDbArg(KWARGS)
  {
  }

  // ---------------------------------------------------------------------------
  // What becomes of a record
  // ---------------------------------------------------------------------------

  /** The full name is that of object x of the database that arg names. */
  ghost predicate ObjectOf(index: map<string, string>, rs: seq<Record>, full: string, arg: string, x: string) {
    InFile(rs, arg) && IsDbArg(arg) && Resolves(index, arg) && ':' !in x && full == FullName(PathOf(arg), x)
  }

  /** A name has followed its database: an object of a database of the file is at that database's
      current path under the same short name; any other name is as it was. */
  ghost predicate NameMoved(index: map<string, string>, rs: seq<Record>, was: string, now: string) {
    && (forall x, arg :: ObjectOf(index, rs, was, arg, x) ==> now == FullName(CurrentPath(index, arg), x))
    && ((forall arg :: InFile(rs, arg) ==> PathOf(arg) != SplitFullName(was).0) ==> now == was)
  }

  ghost predicate AllNamesMoved(index: map<string, string>, rs: seq<Record>, was: seq<string>, now: seq<string>) {
    |now| == |was| && forall i :: 0 <= i < |was| ==> NameMoved(index, rs, was[i], now[i])
  }

  /** An argument that names a database names it at its current path; others are kept. */
  ghost predicate ArgMoved(index: map<string, string>, was: string, now: string) {
    if IsDbArg(was) && Resolves(index, was)
    then ParseDbArgUid(now) == (ParseDbArgUid(was).0, CurrentPath(index, was))
    else now == was
  }

  /** Id and write context hash are kept, the owner is the database the file lies in, and arguments
      and names have moved. */
  ghost predicate Restarted(index: map<string, string>, dir: string, rs: seq<Record>, was: Record, now: Record) {
    && now.id == was.id && now.hash == was.hash && now.owner == (if was.owner == "" then "" else dir)
    && |now.args| == |was.args| && (forall j :: 0 <= j < |was.args| ==> ArgMoved(index, was.args[j], now.args[j]))
    && (Consistent(index, rs) ==>
          && AllNamesMoved(index, rs, was.inputs, now.inputs) && AllNamesMoved(index, rs, was.vars, now.vars)
          && AllNamesMoved(index, rs, was.outputs, now.outputs))
  }

  /** The map of moved paths holds only old paths of the file. */
  lemma {:induction false} OnlyOldPaths(index: map<string, string>, rs: seq<Record>)
    requires AllResolve(index, rs) && Consistent(index, rs)
    ensures forall p :: p in AllMoves(index, rs) ==> exists arg :: InFile(rs, arg) && PathOf(arg) == p
    ensures forall arg :: InFile(rs, arg) ==> Follow(index, AllMoves(index, rs), arg)
  {
    AllMovesFollow(index, rs, |rs|);
    assert rs[..|rs|] == rs;
    hide ParseDbArgUid, InFile, AllMoves, Follow;
    forall p | p in AllMoves(index, rs) ensures exists arg :: InFile(rs, arg) && PathOf(arg) == p {
      var arg :| InFile(rs, arg) && Resolves(index, arg) && PathOf(arg) == p
                 && CurrentPath(index, arg) == AllMoves(index, rs)[p];
    }
  }

  lemma {:induction false} InFileIsDbArg(rs: seq<Record>, arg: string)
    requires InFile(rs, arg)
    ensures IsDbArg(arg) && PathOf(arg) != ""
  {
  }

  lemma {:induction false} RenameMoves(index: map<string, string>, rs: seq<Record>, full: string)
    requires AllResolve(index, rs) && Consistent(index, rs)
    ensures NameMoved(index, rs, full, Rename(AllMoves(index, rs), full))
  {
    var m := AllMoves(index, rs);
    OnlyOldPaths(index, rs);
    hide ParseDbArgUid, InFile, AllMoves, Consistent, AllResolve;
    forall x, arg | ObjectOf(index, rs, full, arg, x)
      ensures Rename(m, full) == FullName(CurrentPath(index, arg), x)
    {
      InFileIsDbArg(rs, arg);
      RenameMovesDb(m, PathOf(arg), x);
      assert Follow(index, m, arg);
    }
    if forall arg :: InFile(rs, arg) ==> PathOf(arg) != SplitFullName(full).0 {
      assert SplitFullName(full).0 !in m;
    }
  }

  /** What the file's records have become. */
  lemma {:induction false} RewriteRestarts(index: map<string, string>, dir: string, rs: seq<Record>)
    requires AllResolve(index, rs)
    ensures forall i :: 0 <= i < |rs| ==> Restarted(index, dir, rs, rs[i], Rewrite(index, dir, rs)[i])
  {
    var out := Rewrite(index, dir, rs);
    hide ParseDbArgUid, EncodeDbArg, AllMoves, Rename, InFile, Consistent;
    forall i | 0 <= i < |rs| ensures Restarted(index, dir, rs, rs[i], out[i]) {
      forall j | 0 <= j < |rs[i].args| ensures ArgMoved(index, rs[i].args[j], out[i].args[j]) {
        assert Resolves(index, rs[i].args[j]);
        ArgAtCurrentPath(index, rs[i].args[j]);
      }
      if Consistent(index, rs) {
        AllRenamed(index, rs, rs[i].inputs);
        AllRenamed(index, rs, rs[i].vars);
        AllRenamed(index, rs, rs[i].outputs);
      }
    }
  }

  lemma {:induction false} AllRenamed(index: map<string, string>, rs: seq<Record>, names: seq<string>)
    requires AllResolve(index, rs) && Consistent(index, rs)
    ensures AllNamesMoved(index, rs, names, RenameAll(AllMoves(index, rs), names))
  {
    hide AllMoves, Rename, NameMoved, AllResolve, Consistent;
    forall i | 0 <= i < |names| ensures NameMoved(index, rs, names[i], Rename(AllMoves(index, rs), names[i])) {
      RenameMoves(index, rs, names[i]);
    }
  }

  // ---------------------------------------------------------------------------
  // A second rewrite changes nothing
  // ---------------------------------------------------------------------------

  ghost predicate AtCurrent(index: map<string, string>, arg: string) {
    Resolves(index, arg) && (IsDbArg(arg) ==> PathOf(arg) == CurrentPath(index, arg))
  }

  ghost predicate AllAtCurrent(index: map<string, string>, rs: seq<Record>) {
    forall i, j :: 0 <= i < |rs| && 0 <= j < |rs[i].args| ==> AtCurrent(index, rs[i].args[j])
  }

  lemma {:induction false} NoMoves(index: map<string, string>, args: seq<string>, m: map<string, string>)
    requires forall j :: 0 <= j < |args| ==> AtCurrent(index, args[j])
    ensures (forall j :: 0 <= j < |args| ==> Resolves(index, args[j])) && Moves(index, args, m) == m
    decreases |args|
  {
    hide ParseDbArgUid;
    if args != [] {
      NoMoves(index, args[..|args| - 1], m);
      assert AtCurrent(index, args[|args| - 1]);
    }
  }

  lemma {:induction false} AllNoMoves(index: map<string, string>, rs: seq<Record>)
    requires AllAtCurrent(index, rs)
    ensures AllResolve(index, rs) && AllMoves(index, rs) == map[]
    decreases |rs|
  {
    hide ParseDbArgUid;
    forall i, j | 0 <= i < |rs| && 0 <= j < |rs[i].args| ensures Resolves(index, rs[i].args[j]) {
      assert AtCurrent(index, rs[i].args[j]);
    }
    if rs != [] {
      var last := rs[|rs| - 1];
      AllNoMoves(index, rs[..|rs| - 1]);
      NoMoves(index, last.args, AllMoves(index, rs[..|rs| - 1]));
    }
  }

  /** Every database argument of the result is at its uid's current path. */
  lemma {:induction false} RewrittenAtCurrent(index: map<string, string>, dir: string, rs: seq<Record>)
    requires AllResolve(index, rs)
    ensures AllAtCurrent(index, Rewrite(index, dir, rs))
  {
    hide ParseDbArgUid, EncodeDbArg, RewriteArg;
    var out := Rewrite(index, dir, rs);
    forall i, j | 0 <= i < |out| && 0 <= j < |out[i].args| ensures AtCurrent(index, out[i].args[j]) {
      var arg := rs[i].args[j];
      assert Resolves(index, arg);
      assert out[i].args[j] == RewriteArg(index, arg);
      ArgAtCurrentPath(index, arg);
    }
  }

  /** An argument in the current form at its current path. */
  lemma {:induction false} RewriteArgTwice(index: map<string, string>, arg: string)
    requires Resolves(index, arg)
    ensures Resolves(index, RewriteArg(index, arg))
            && RewriteArg(index, RewriteArg(index, arg)) == RewriteArg(index, arg)
  {
    hide ParseDbArgUid, EncodeDbArg;
    ArgAtCurrentPath(index, arg);
  }

  /** Rewriting the result again gives it back. */
  lemma {:induction false} RewriteIsIdempotent(index: map<string, string>, dir: string, rs: seq<Record>)
    requires AllResolve(index, rs)
    ensures AllResolve(index, Rewrite(index, dir, rs))
    ensures Rewrite(index, dir, Rewrite(index, dir, rs)) == Rewrite(index, dir, rs)
  {
    hide ParseDbArgUid, RewriteArg, IsDbArg, Resolves, AllMoves;
    var out := Rewrite(index, dir, rs);
    RewrittenAtCurrent(index, dir, rs);
    AllNoMoves(index, out);
    var again := Rewrite(index, dir, out);
    forall i | 0 <= i < |out| ensures again[i] == out[i] {
      forall j | 0 <= j < |rs[i].args| ensures RewriteArg(index, out[i].args[j]) == out[i].args[j] {
        assert Resolves(index, rs[i].args[j]);
        RewriteArgTwice(index, rs[i].args[j]);
      }
      var r := out[i];
      RenameNothing(r.inputs);
      RenameNothing(r.vars);
      RenameNothing(r.outputs);
      assert RewriteArgs(index, r.args) == r.args;
    }
  }

  lemma {:induction false} RenameNothing(names: seq<string>)
    ensures RenameAll(map[], names) == names
  {
  }

  // ---------------------------------------------------------------------------
  // The code
  // ---------------------------------------------------------------------------

  lemma {:induction false} OneMoreResolves(index: map<string, string>, rs: seq<Record>, i: nat)
    requires i < |rs| && AllResolve(index, rs[..i])
    requires forall j :: 0 <= j < |rs[i].args| ==> Resolves(index, rs[i].args[j])
    ensures AllResolve(index, rs[..i + 1])
  {
  }

  class RestartService {
    /** Records of the file, if it exists. */
    var file: Option<seq<Record>>
    var uidIndex: map<string, string>
    /** Records handed to submit_task, in order. */
    var submitted: seq<Record>

    constructor (file: Option<seq<Record>>, uidIndex: map<string, string>)
      ensures this.file == file && this.uidIndex == uidIndex && submitted == []
    {
      this.file, this.uidIndex, submitted := file, uidIndex, [];
    }

    method CheckKwargs(rs: seq<Record>) returns (ok: bool)
      ensures ok == AllHaveKwargs(rs)
    {
      for i := 0 to |rs|
        invariant AllHaveKwargs(rs[..i])
      {
        if !HasKwargs(rs[i]) {
          return false;
        }
        assert rs[..i + 1] == rs[..i] + [rs[i]];
      }
      assert rs[..|rs|] == rs;
      ok := true;
    }

    /** Resolve one record's arguments, adding to the map of moved paths. */
    method ResolveRecord(args: seq<string>, m: map<string, string>) returns (r: Option<map<string, string>>)
      ensures r.Some? <==> forall j :: 0 <= j < |args| ==> Resolves(uidIndex, args[j])
      ensures r.Some? ==> r.value == Moves(uidIndex, args, m)
    {
      hide ParseDbArgUid;
      var moved := m;
      for j := 0 to |args|
        invariant forall k :: 0 <= k < j ==> Resolves(uidIndex, args[k])
        invariant moved == Moves(uidIndex, args[..j], m)
      {
        assert args[..j + 1][..j] == args[..j];
        var (uid, path) := ParseDbArgUid(args[j]);
        if path == "" {
          continue;
        }
        if uid == "" || uid !in uidIndex || uidIndex[uid] == "" {
          return None;
        }
        if uidIndex[uid] != path {
          moved := moved[path := uidIndex[uid]];
        }
      }
      assert args[..|args|] == args;
      r := Some(moved);
    }

    method ResolveAll(rs: seq<Record>) returns (r: Option<map<string, string>>)
      ensures r.Some? <==> AllResolve(uidIndex, rs)
      ensures r.Some? ==> r.value == AllMoves(uidIndex, rs)
    {
      hide ParseDbArgUid, Resolves, Moves;
      var moved := map[];
      for i := 0 to |rs|
        invariant AllResolve(uidIndex, rs[..i]) && moved == AllMoves(uidIndex, rs[..i])
      {
        assert rs[..i + 1][..i] == rs[..i];
        var step := ResolveRecord(rs[i].args, moved);
        if step.None? {
          return None;
        }
        OneMoreResolves(uidIndex, rs, i);
        moved := step.value;
      }
      assert rs[..|rs|] == rs;
      r := Some(moved);
    }

    method RenameEach(m: map<string, string>, names: seq<string>) returns (out: seq<string>)
      ensures out == RenameAll(m, names)
    {
      out := [];
      for i := 0 to |names|
        invariant |out| == i && forall k :: 0 <= k < i ==> out[k] == Rename(m, names[k])
      {
        out := out + [Rename(m, names[i])];
      }
    }

    method RewriteOne(m: map<string, string>, dir: string, r: Record) returns (out: Record)
      requires forall j :: 0 <= j < |r.args| ==> Resolves(uidIndex, r.args[j])
      ensures out == RewriteRecord(uidIndex, m, dir, r)
    {
      hide ParseDbArgUid;
      var args := [];
      for j := 0 to |r.args|
        invariant |args| == j && forall k :: 0 <= k < j ==> args[k] == RewriteArg(uidIndex, r.args[k])
      {
        args := args + [RewriteArg(uidIndex, r.args[j])];
      }
      assert args == RewriteArgs(uidIndex, r.args);
      var inputs := RenameEach(m, r.inputs);
      var vars := RenameEach(m, r.vars);
      var outputs := RenameEach(m, r.outputs);
      out := r.(args := args, inputs := inputs, vars := vars, outputs := outputs,
                owner := if r.owner == "" then "" else dir);
    }

    method RewriteAll(m: map<string, string>, dir: string, rs: seq<Record>) returns (out: seq<Record>)
      requires AllResolve(uidIndex, rs) && m == AllMoves(uidIndex, rs)
      ensures out == Rewrite(uidIndex, dir, rs)
    {
      hide Resolves, RewriteRecord, AllMoves;
      out := [];
      for i := 0 to |rs|
        invariant |out| == i && forall k :: 0 <= k < i ==> out[k] == Rewrite(uidIndex, dir, rs)[k]
      {
        var r := RewriteOne(m, dir, rs[i]);
        out := out + [r];
      }
    }

    method Resubmit(rs: seq<Record>)
      modifies `submitted
      ensures submitted == old(submitted) + rs
    {
      for i := 0 to |rs|
        invariant submitted == old(submitted) + rs[..i]
      {
        submitted := submitted + [rs[i]];
      }
      assert rs[..|rs|] == rs;
    }

    /** All or nothing: either every record is resubmitted once, rewritten, and the file is gone,
        or nothing is resubmitted and the file stays. */
    method RestartFailedTasks(dir: string) returns (count: nat)
      modifies this
      ensures uidIndex == old(uidIndex)
      ensures (count > 0) <==> old(file).Some? && old(file).value != [] && AllHaveKwargs(old(file).value)
                               && AllResolve(uidIndex, old(file).value)
      ensures count == 0 ==> file == old(file) && submitted == old(submitted)
      ensures count > 0 ==> count == |old(file).value| && file == None
                            && submitted == old(submitted) + Rewrite(uidIndex, dir, old(file).value)
      ensures count > 0 ==>
                && |submitted| == |old(submitted)| + count && submitted[..|old(submitted)|] == old(submitted)
                && forall i :: 0 <= i < count ==>
                     Restarted(uidIndex, dir, old(file).value, old(file).value[i], submitted[|old(submitted)| + i])
    {
      if file.None? || file.value == [] {
        return 0;
      }
      hide *;
      var records := file.value;
      var current := CheckKwargs(records);
      if !current {
        return 0;
      }
      var moved := ResolveAll(records);
      if moved.None? {
        return 0;
      }
      var out := RewriteAll(moved.value, dir, records);
      RewriteRestarts(uidIndex, dir, records);
      file := None;
      Resubmit(out);
      count := |out|;
    }
  }
}
