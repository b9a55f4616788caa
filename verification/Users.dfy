/**
 * The user table of src/server/users.c, and its resize in src/server/manager.c. C strings are `string`s; a null
 * pointer counts as the empty string.
 */
module Users {

  const MAX_LENGTH: nat := 255
  const ADMIN: int := 1
  const COMMONER: int := 0

  /** One more than the largest `unsigned int`. */
  const UINT: nat := 0x1_0000_0000

  /** One more than the largest `size_t`, and the bytes of a row. */
  const SIZE: nat := 0x1_0000_0000_0000_0000
  const ROW_BYTES: nat := 528

  /** `Tuser`; `access` names the string builder that the row points to. */
  datatype Row = Row(name: string, pass: string, status: int, access: nat)

  /** What `strncpy` keeps. */
  function Kept(s: string): string { if |s| <= MAX_LENGTH then s else s[..MAX_LENGTH] }

  /** The used rows, the counters, the array's length, and the string builders that are allocated for rows. */
  datatype Table = Table(rows: seq<Row>, admins: nat, max: nat, capacity: nat, live: set<nat>)

  // ---------------------------------------------------------------- operations

  /** Index of the first row called `name`, -1 if there is none. */
  function Find(rows: seq<Row>, name: string): (r: int)
    ensures -1 <= r < |rows| && (r >= 0 ==> rows[r].name == name)
  {
    FindFrom(rows, name, 0)
  }

  function FindFrom(rows: seq<Row>, name: string, i: nat): (r: int)
    requires i <= |rows|
    ensures -1 <= r < |rows| && (r >= 0 ==> rows[r].name == name)
    decreases |rows| - i
  {
    if i == |rows| then -1
    else if rows[i].name == name then i
    else FindFrom(rows, name, i + 1)
  }

  function Without(rows: seq<Row>, i: nat): seq<Row>
    requires i < |rows|
  {
    rows[..i] + rows[i + 1..]
  }

  /** `new_user`, given what `sb_create` returns. */
  function Added(u: Table, name: string, pass: string, access: nat): (int, Table) {
    if name == "" || pass == "" || Find(u.rows, name) >= 0 || |u.rows| >= u.max then (-1, u)
    else (0, u.(rows := u.rows + [Row(Kept(name), Kept(pass), COMMONER, access)], live := u.live + {access}))
  }

  function WithStatus(u: Table, name: string, status: int): Table {
    var i := Find(u.rows, name);
    if i < 0 || u.rows[i].status == status then u
    else
      var was := u.rows[i].status;
      u.(rows := u.rows[i := u.rows[i].(status := status)],
         admins := if was == ADMIN then (u.admins + UINT - 1) % UINT
                   else if status == ADMIN then (u.admins + 1) % UINT
                   else u.admins)
  }

  function WithPassword(u: Table, name: string, oldPass: string, newPass: string): (int, Table) {
    var i := Find(u.rows, name);
    if i < 0 || u.rows[i].pass != oldPass then (-1, u)
    else (0, u.(rows := u.rows[i := u.rows[i].(pass := Kept(newPass))]))
  }

  function Removed(u: Table, name: string): (int, Table) {
    var i := Find(u.rows, name);
    if i < 0 then (-1, u)
    else if u.rows[i].status == ADMIN && u.admins == 1 then (-1, u)
    else
      (0, u.(rows := Without(u.rows, i), live := u.live - {u.rows[i].access},
             admins := if u.rows[i].status == ADMIN then (u.admins + UINT - 1) % UINT else u.admins))
  }

  /** How many rows the bytes asked for can hold: their number is computed in a `size_t`. */
  function Room(limit: nat): nat { limit * ROW_BYTES % SIZE / ROW_BYTES }

  predicate Accepts(u: Table, limit: int, granted: bool) { limit > 0 && limit % UINT >= |u.rows| && granted }

  /** `handle_set_max_users` on a parsed number; `granted` is whether `realloc` succeeds. */
  function Resized(u: Table, limit: int, granted: bool): Table {
    if Accepts(u, limit, granted) then u.(max := limit % UINT, capacity := Room(limit)) else u
  }

  function Login(u: Table, name: string, pass: string): int {
    var i := Find(u.rows, name);
    if i < 0 || u.rows[i].pass != pass then -1 else 0
  }

  // ---------------------------------------------------------------- invariants

  function Admins(rows: seq<Row>): nat {
    if rows == [] then 0
    else Admins(rows[..|rows| - 1]) + if rows[|rows| - 1].status == ADMIN then 1 else 0
  }

  predicate NamesDistinct(rows: seq<Row>) {
    forall i, j :: 0 <= i < j < |rows| ==> rows[i].name != rows[j].name
  }

  predicate Fits(r: Row) { 0 < |r.name| <= MAX_LENGTH && |r.pass| <= MAX_LENGTH }

  /** Every row has a string builder of its own, and no other is allocated. */
  predicate OwnsBuilders(u: Table) {
    && (forall i, j :: 0 <= i < j < |u.rows| ==> u.rows[i].access != u.rows[j].access)
    && (forall i :: 0 <= i < |u.rows| ==> u.rows[i].access in u.live)
    && (forall a :: a in u.live ==> exists i :: 0 <= i < |u.rows| && u.rows[i].access == a)
  }

  predicate Good(u: Table) {
    && (forall i :: 0 <= i < |u.rows| ==> Fits(u.rows[i]))
    && u.admins == Admins(u.rows)
    && |u.rows| <= u.max < UINT && |u.rows| <= u.capacity
    && OwnsBuilders(u)
  }

  // ---------------------------------------------------------------- lookup

  lemma {:induction false} FindFromFinds(rows: seq<Row>, name: string, i: nat)
    requires i <= |rows|
    ensures var k := FindFrom(rows, name, i);
            && -1 <= k < |rows|
            && (k >= 0 ==> i <= k && rows[k].name == name && forall j :: i <= j < k ==> rows[j].name != name)
            && (k == -1 ==> forall j :: i <= j < |rows| ==> rows[j].name != name)
    decreases |rows| - i
  {
    if i < |rows| && rows[i].name != name {
      FindFromFinds(rows, name, i + 1);
    }
  }

  /** A lookup that meets the name first at `k` returns `k`. */
  lemma FindIs(rows: seq<Row>, name: string, k: nat)
    requires k < |rows| && rows[k].name == name
    requires forall j :: 0 <= j < k ==> rows[j].name != name
    ensures Find(rows, name) == k
  {
    FindFromFinds(rows, name, 0);
  }

  lemma FindNone(rows: seq<Row>, name: string)
    requires forall j :: 0 <= j < |rows| ==> rows[j].name != name
    ensures Find(rows, name) == -1
  {
    FindFromFinds(rows, name, 0);
  }

  /** No row can be called what does not fit in one. */
  lemma LongNameIsAbsent(rows: seq<Row>, name: string)
    requires forall i :: 0 <= i < |rows| ==> Fits(rows[i])
    ensures |name| > MAX_LENGTH ==> Find(rows, name) == -1
  {
    if |name| > MAX_LENGTH {
      forall j | 0 <= j < |rows| ensures rows[j].name != name {
        assert Fits(rows[j]);
      }
      FindNone(rows, name);
    }
  }

  /** Login succeeds if and only if the first row of that name has that password. */
  lemma LoginMeans(u: Table, name: string, pass: string)
    ensures Login(u, name, pass) == 0 <==>
            exists k :: 0 <= k < |u.rows| && u.rows[k].name == name && u.rows[k].pass == pass
                        && forall j :: 0 <= j < k ==> u.rows[j].name != name
  {
    FindFromFinds(u.rows, name, 0);
    if k :| 0 <= k < |u.rows| && u.rows[k].name == name && u.rows[k].pass == pass
            && forall j :: 0 <= j < k ==> u.rows[j].name != name {
      FindIs(u.rows, name, k);
    }
  }

  // ---------------------------------------------------------------- counting admins

  lemma AdminsSnoc(rows: seq<Row>, r: Row)
    ensures Admins(rows + [r]) == Admins(rows) + if r.status == ADMIN then 1 else 0
  {
    assert (rows + [r])[..|rows|] == rows;
  }

  lemma {:induction false} AdminsWithout(rows: seq<Row>, i: nat)
    requires i < |rows|
    ensures Admins(rows) == Admins(Without(rows, i)) + if rows[i].status == ADMIN then 1 else 0
  {
    var n := |rows| - 1;
    if i == n {
      assert Without(rows, i) == rows[..n];
    } else {
      AdminsWithout(rows[..n], i);
      assert Without(rows, i) == Without(rows[..n], i) + [rows[n]];
      AdminsSnoc(Without(rows[..n], i), rows[n]);
    }
  }

  lemma AdminsUpdate(rows: seq<Row>, i: nat, r: Row)
    requires i < |rows|
    ensures Admins(rows[i := r]) + (if rows[i].status == ADMIN then 1 else 0)
            == Admins(rows) + if r.status == ADMIN then 1 else 0
  {
    AdminsWithout(rows, i);
    AdminsWithout(rows[i := r], i);
    assert Without(rows[i := r], i) == Without(rows, i);
  }

  lemma {:induction false} AdminsAtMost(rows: seq<Row>)
    ensures Admins(rows) <= |rows|
  {
    if rows != [] {
      AdminsAtMost(rows[..|rows| - 1]);
    }
  }

  // ---------------------------------------------------------------- what every operation keeps

  lemma OneMoreBuilder(u: Table, u': Table, r: Row)
    requires OwnsBuilders(u) && r.access !in u.live
    requires u'.rows == u.rows + [r] && u'.live == u.live + {r.access}
    ensures OwnsBuilders(u')
  {
    forall a | a in u'.live ensures exists i :: 0 <= i < |u'.rows| && u'.rows[i].access == a {
      if a == r.access {
        assert u'.rows[|u.rows|].access == a;
      } else {
        var i :| 0 <= i < |u.rows| && u.rows[i].access == a;
        assert u'.rows[i].access == a;
      }
    }
  }

  lemma NewUserKeeps(u: Table, name: string, pass: string, access: nat)
    requires Good(u) && access !in u.live
    ensures Good(Added(u, name, pass, access).1) <==> !Overruns(u, Add(name, pass, access))
  {
    hide Admins, OwnsBuilders;
    var (r, u') := Added(u, name, pass, access);
    if r == 0 {
      AdminsSnoc(u.rows, u'.rows[|u.rows|]);
      OneMoreBuilder(u, u', u'.rows[|u.rows|]);
    }
  }

  lemma ChangeStatusKeeps(u: Table, name: string, status: int)
    requires Good(u)
    ensures Good(WithStatus(u, name, status))
  {
    hide Admins;
    FindFromFinds(u.rows, name, 0);
    var i := Find(u.rows, name);
    if i >= 0 {
      AdminsUpdate(u.rows, i, u.rows[i].(status := status));
      AdminsAtMost(u.rows);
      var u' := WithStatus(u, name, status);
      AdminsAtMost(u'.rows);
      BuildersStay(u, u');
    }
  }

  /** Rows that keep their builders keep owning them. */
  lemma BuildersStay(u: Table, u': Table)
    requires OwnsBuilders(u) && u'.live == u.live && |u'.rows| == |u.rows|
    requires forall i :: 0 <= i < |u.rows| ==> u'.rows[i].access == u.rows[i].access
    ensures OwnsBuilders(u')
  {
    forall a | a in u'.live ensures exists i :: 0 <= i < |u'.rows| && u'.rows[i].access == a {
      var i :| 0 <= i < |u.rows| && u.rows[i].access == a;
      assert u'.rows[i].access == a;
    }
  }

  lemma ChangePasswordKeeps(u: Table, name: string, oldPass: string, newPass: string)
    requires Good(u)
    ensures Good(WithPassword(u, name, oldPass, newPass).1)
  {
    hide Admins;
    var (r, u') := WithPassword(u, name, oldPass, newPass);
    if r == 0 {
      var i := Find(u.rows, name);
      AdminsUpdate(u.rows, i, u'.rows[i]);
      BuildersStay(u, u');
    }
  }

  lemma WithoutBuilder(u: Table, u': Table, i: nat)
    requires OwnsBuilders(u) && i < |u.rows| && u'.rows == Without(u.rows, i) && u'.live == u.live - {u.rows[i].access}
    ensures OwnsBuilders(u')
  {
    forall a | a in u'.live ensures exists k :: 0 <= k < |u'.rows| && u'.rows[k].access == a {
      var k :| 0 <= k < |u.rows| && u.rows[k].access == a;
      assert u'.rows[if k < i then k else k - 1].access == a;
    }
  }

  lemma DeleteUserKeeps(u: Table, name: string)
    requires Good(u)
    ensures Good(Removed(u, name).1)
  {
    hide Admins;
    var (r, u') := Removed(u, name);
    if r == 0 {
      var i := Find(u.rows, name);
      AdminsWithout(u.rows, i);
      AdminsAtMost(u.rows);
      WithoutBuilder(u, u', i);
    }
  }

  /** Names stay distinct through an addition if and only if it is refused or what is kept of the name is new. */
  lemma NewUserKeepsNamesDistinct(u: Table, name: string, pass: string, access: nat)
    requires Good(u) && NamesDistinct(u.rows)
    ensures NamesDistinct(Added(u, name, pass, access).1.rows) <==>
            || name == "" || pass == "" || |u.rows| >= u.max
            || |name| <= MAX_LENGTH || Find(u.rows, name[..MAX_LENGTH]) == -1
  {
    var (r, u') := Added(u, name, pass, access);
    LongNameIsAbsent(u.rows, name);
    FindFromFinds(u.rows, name, 0);
    FindFromFinds(u.rows, Kept(name), 0);
    if r == 0 {
      var n := |u.rows|;
      assert u'.rows[n].name == Kept(name);
      assert forall i :: 0 <= i < n ==> u'.rows[i] == u.rows[i];
      var k := Find(u.rows, Kept(name));
      if k >= 0 {
        assert u'.rows[k].name == u'.rows[n].name;
      }
    }
  }

  /** Two names that agree on their first 255 characters end up in two rows of the same name. */
  lemma LongNamesCollide(u: Table, name: string)
    requires Good(u) && |name| == MAX_LENGTH && |u.rows| + 2 <= u.max && Find(u.rows, name) == -1
    ensures var u1 := Added(u, name + "a", "p", 0).1;
            var u2 := Added(u1, name + "b", "p", 1).1;
            |u2.rows| == |u.rows| + 2 && !NamesDistinct(u2.rows)
  {
    var n := |u.rows|;
    LongNameIsAbsent(u.rows, name + "a");
    var u1 := Added(u, name + "a", "p", 0).1;
    assert u1.rows[n].name == name;
    LongNameIsAbsent(u1.rows, name + "b");
    var u2 := Added(u1, name + "b", "p", 1).1;
    assert u2.rows[n].name == u2.rows[n + 1].name;
  }

  // ---------------------------------------------------------------- runs

  datatype Op =
    | Add(name: string, pass: string, access: nat)
    | Remove(name: string)
    | Status(name: string, status: int)
    | Password(name: string, oldPass: string, newPass: string)
    | Resize(limit: int, granted: bool)

  /** An allocator hands out storage that is not in use. */
  predicate CanDo(u: Table, op: Op) { op.Add? ==> op.access !in u.live }

  /** The operation leaves the array: a row is written past its end, or the new array is too short for the rows. */
  predicate Overruns(u: Table, op: Op) {
    match op
    case Add(name, pass, _) => name != "" && pass != "" && Find(u.rows, name) < 0 && u.capacity <= |u.rows| < u.max
    case Resize(limit, granted) => Accepts(u, limit, granted) && Room(limit) < |u.rows|
    case _ => false
  }

  function Do(u: Table, op: Op): Table {
    match op
    case Add(name, pass, access) => Added(u, name, pass, access).1
    case Remove(name) => Removed(u, name).1
    case Status(name, status) => WithStatus(u, name, status)
    case Password(name, oldPass, newPass) => WithPassword(u, name, oldPass, newPass).1
    case Resize(limit, granted) => Resized(u, limit, granted)
  }

  predicate CanRun(u: Table, ops: seq<Op>)
    decreases |ops|
  {
    ops == [] || (CanDo(u, ops[0]) && !Overruns(u, ops[0]) && CanRun(Do(u, ops[0]), ops[1..]))
  }

  function Run(u: Table, ops: seq<Op>): Table
    decreases |ops|
  {
    if ops == [] then u else Run(Do(u, ops[0]), ops[1..])
  }

  lemma RoomForAll(limit: nat)
    requires limit * ROW_BYTES < SIZE
    ensures Room(limit) == limit
  {
  }

  /** The limit promises more rows than the array has. */
  predicate Short(u: Table) { u.capacity < u.max }

  /** The array becomes too short for the limit exactly by a granted limit whose size in bytes wraps that far. */
  lemma ResizesShorten(u: Table, op: Op)
    ensures Short(Do(u, op)) <==>
            if op.Resize? && Accepts(u, op.limit, op.granted) then Room(op.limit) < op.limit % UINT else Short(u)
    ensures op.Resize? && op.limit > 0 && Room(op.limit) < op.limit % UINT ==> op.limit * ROW_BYTES >= SIZE
  {
    if op.Resize? && op.limit > 0 && op.limit * ROW_BYTES < SIZE {
      RoomForAll(op.limit);
    }
    hide Room, Find;
  }

  /** Only such a limit, granted now or before, lets an operation leave the array. */
  lemma OverrunsNeedAWrap(u: Table, op: Op)
    requires Good(u) && Overruns(u, op)
    ensures if op.Resize? then Room(op.limit) < op.limit % UINT else op.Add? && Short(u)
  {
    hide Admins, Room, Find;
  }

  /**
   * Two limits that wrap. The first is over a thousand million users in 16 bytes: no row fits, and those there are
   * have been lost. The second leaves room for the one user there is, and the next one is written past the end.
   */
  lemma SizesWrap(name: string, access: nat)
    requires name != "" && name != "admin" && access != 0
    ensures var u := Table([Row("admin", "admin", ADMIN, 0)], 1, 10, 10, {0});
            var (first, second) := (Resize(1117984489315730401, true), Resize(1117984489315730402, true));
            && Good(u) && Overruns(u, first) && !Overruns(u, second)
            && Good(Do(u, second)) && CanDo(Do(u, second), Add(name, "p", access))
            && Overruns(Do(u, second), Add(name, "p", access))
  {
    var u := Table([Row("admin", "admin", ADMIN, 0)], 1, 10, 10, {0});
    InitialIsGood(0);
    assert Room(1117984489315730401) == 0 && 1117984489315730401 % UINT == 1041204193;
    assert Room(1117984489315730402) == 1 && 1117984489315730402 % UINT == 1041204194;
    OverrunsBreak(u, Resize(1117984489315730402, true));
    FindNone(u.rows, name);
  }

  lemma ResizeKeeps(u: Table, limit: int, granted: bool)
    requires Good(u)
    ensures Good(Resized(u, limit, granted)) <==> !Overruns(u, Resize(limit, granted))
  {
    hide Admins, Room;
    BuildersStay(u, Resized(u, limit, granted));
  }

  /** An operation keeps the table in order if and only if it does not leave the array. */
  lemma OverrunsBreak(u: Table, op: Op)
    requires Good(u) && CanDo(u, op)
    ensures Good(Do(u, op)) <==> !Overruns(u, op)
  {
    match op
    case Add(name, pass, access) => NewUserKeeps(u, name, pass, access);
    case Remove(name) => DeleteUserKeeps(u, name);
    case Status(name, status) => ChangeStatusKeeps(u, name, status);
    case Password(name, oldPass, newPass) => ChangePasswordKeeps(u, name, oldPass, newPass);
    case Resize(limit, granted) => ResizeKeeps(u, limit, granted);
  }

  lemma DoKeepsNamesDistinct(u: Table, op: Op)
    requires Good(u) && NamesDistinct(u.rows) && (op.Add? ==> |op.name| <= MAX_LENGTH)
    ensures NamesDistinct(Do(u, op).rows)
  {
    if op.Add? {
      NewUserKeepsNamesDistinct(u, op.name, op.pass, op.access);
    }
  }

  /**
   * After any sequence of additions, removals, status and password changes and resizes in which none leaves the
   * array: names are non-empty, the admin counter is the number of admin rows, the rows fit under the limit and in
   * the array, and the string builders allocated are exactly one for each row.
   */
  lemma {:induction false} RunKeepsGood(u: Table, ops: seq<Op>)
    requires Good(u) && CanRun(u, ops)
    ensures Good(Run(u, ops))
    decreases |ops|
  {
    if ops != [] {
      OverrunsBreak(u, ops[0]);
      RunKeepsGood(Do(u, ops[0]), ops[1..]);
    }
  }

  /** And names stay distinct as long as those added have at most 255 characters. */
  lemma {:induction false} RunKeepsNamesDistinct(u: Table, ops: seq<Op>)
    requires Good(u) && NamesDistinct(u.rows) && CanRun(u, ops)
    requires forall i :: 0 <= i < |ops| && ops[i].Add? ==> |ops[i].name| <= MAX_LENGTH
    ensures NamesDistinct(Run(u, ops).rows)
    decreases |ops|
  {
    if ops != [] {
      OverrunsBreak(u, ops[0]);
      DoKeepsNamesDistinct(u, ops[0]);
      RunKeepsNamesDistinct(Do(u, ops[0]), ops[1..]);
    }
  }

  /** The last admin disappears in a step if and only if the step takes that row's status away. */
  lemma LastAdminGoes(u: Table, op: Op)
    requires Good(u) && u.admins >= 1
    ensures Do(u, op).admins == 0 <==>
            && op.Status? && op.status != ADMIN && u.admins == 1
            && Find(u.rows, op.name) >= 0 && u.rows[Find(u.rows, op.name)].status == ADMIN
  {
    hide Admins, Room;
    AdminsAtMost(u.rows);
    assert (u.admins + UINT - 1) % UINT == u.admins - 1;
    if op.Status? && Find(u.rows, op.name) >= 0 {
      var i := Find(u.rows, op.name);
      AdminsUpdate(u.rows, i, u.rows[i].(status := op.status));
      AdminsAtMost(u.rows[i := u.rows[i].(status := op.status)]);
    }
  }

  /** It can happen to the table a server starts with. */
  lemma OnlyAdminGoes(access: nat)
    ensures var u := Table([Row("admin", "admin", ADMIN, access)], 1, 10, 10, {access});
            Good(u) && u.admins == 1 && Do(u, Status("admin", COMMONER)).admins == 0
  {
    InitialIsGood(access);
  }

  // ---------------------------------------------------------------- when an operation succeeds, and what it leaves

  /** Row `i` is the one that a lookup of `name` finds. */
  predicate IsFirst(rows: seq<Row>, name: string, i: nat) {
    i < |rows| && rows[i].name == name && forall j :: 0 <= j < i ==> rows[j].name != name
  }

  lemma FirstIsFound(rows: seq<Row>, name: string)
    ensures Find(rows, name) >= 0 <==> exists i :: 0 <= i < |rows| && rows[i].name == name
    ensures forall i: nat :: IsFirst(rows, name, i) <==> i == Find(rows, name)
  {
    FindFromFinds(rows, name, 0);
  }

  /** A user is added exactly when both strings are there, nobody has the name, and there is room under the limit. */
  lemma AddingSucceeds(u: Table, name: string, pass: string, access: nat)
    ensures var (r, u') := Added(u, name, pass, access);
            && r in {0, -1}
            && (r == 0 <==>
                  name != "" && pass != "" && |u.rows| < u.max && forall i :: 0 <= i < |u.rows| ==> u.rows[i].name != name)
            && (r == -1 ==> u' == u)
            && (r == 0 ==> u'.rows[..|u.rows|] == u.rows && |u'.rows| == |u.rows| + 1 && u'.rows[|u.rows|].status == 0)
  {
    FirstIsFound(u.rows, name);
  }

  /** A user is removed exactly when there is one of that name who is not the last admin. */
  lemma RemovingSucceeds(u: Table, name: string)
    ensures var (r, u') := Removed(u, name);
            && r in {0, -1}
            && (r == 0 <==> exists i: nat :: IsFirst(u.rows, name, i) && !(u.rows[i].status == ADMIN && u.admins == 1))
            && (r == -1 ==> u' == u)
            && (forall i: nat :: IsFirst(u.rows, name, i) && r == 0 ==>
                  u'.rows == u.rows[..i] + u.rows[i + 1..] && u'.live == u.live - {u.rows[i].access})
  {
    FirstIsFound(u.rows, name);
  }

  /** A password is changed exactly when the old one would log in, and only for that user. */
  lemma ChangingPasswordSucceeds(u: Table, name: string, oldPass: string, newPass: string)
    ensures var (r, u') := WithPassword(u, name, oldPass, newPass);
            && r in {0, -1}
            && (r == 0 <==> Login(u, name, oldPass) == 0)
            && (r == 0 <==> exists i: nat :: IsFirst(u.rows, name, i) && u.rows[i].pass == oldPass)
            && (r == -1 ==> u' == u)
            && |u'.rows| == |u.rows|
            && (forall i: nat :: i < |u.rows| && r == 0 ==>
                  u'.rows[i] == if IsFirst(u.rows, name, i) then u.rows[i].(pass := Kept(newPass)) else u.rows[i])
  {
    FirstIsFound(u.rows, name);
  }

  /** A status is set for the first user of that name, and nothing else of the rows changes. */
  lemma StatusIsSet(u: Table, name: string, status: int)
    ensures var u' := WithStatus(u, name, status);
            && |u'.rows| == |u.rows| && u'.max == u.max && u'.capacity == u.capacity && u'.live == u.live
            && (forall i: nat :: i < |u.rows| ==>
                  u'.rows[i] == if IsFirst(u.rows, name, i) then u.rows[i].(status := status) else u.rows[i])
  {
    FirstIsFound(u.rows, name);
  }

  /** A limit is accepted exactly when it is positive, its low 32 bits are not below the number of users, and there is memory. */
  lemma LimitIsSet(u: Table, limit: int, granted: bool)
    ensures var u' := Resized(u, limit, granted);
            && u'.rows == u.rows && u'.admins == u.admins && u'.live == u.live
            && (u'.max != u.max ==> limit > 0 && granted && limit % 0x1_0000_0000 >= |u.rows|)
            && (limit > 0 && granted && limit % 0x1_0000_0000 >= |u.rows| ==> u'.max == limit % 0x1_0000_0000)
  {
  }

  // ---------------------------------------------------------------- what the operations mean to a login

  /** A new user can log in if and only if nothing of the name or the password was cut off. */
  lemma NewUserLogsIn(u: Table, name: string, pass: string, access: nat)
    requires Good(u) && Added(u, name, pass, access).0 == 0
    ensures Login(Added(u, name, pass, access).1, name, pass) == 0 <==> |name| <= MAX_LENGTH && |pass| <= MAX_LENGTH
  {
    var u' := Added(u, name, pass, access).1;
    var n := |u.rows|;
    FindFromFinds(u.rows, name, 0);
    assert forall i :: 0 <= i < n ==> u'.rows[i] == u.rows[i];
    assert u'.rows[n] == Row(Kept(name), Kept(pass), COMMONER, access);
    if |name| <= MAX_LENGTH {
      FindIs(u'.rows, name, n);
    } else {
      LongNameIsAbsent(u'.rows, name);
    }
  }

  /** After a password change the user logs in with what was kept of the new password, and with nothing else. */
  lemma NewPasswordLogsIn(u: Table, name: string, oldPass: string, newPass: string, pass: string)
    requires WithPassword(u, name, oldPass, newPass).0 == 0
    ensures Login(u, name, oldPass) == 0
    ensures Login(WithPassword(u, name, oldPass, newPass).1, name, pass) == 0 <==> pass == Kept(newPass)
  {
    var u' := WithPassword(u, name, oldPass, newPass).1;
    FindFromFinds(u.rows, name, 0);
    var i := Find(u.rows, name);
    assert forall j :: 0 <= j < |u.rows| ==> u'.rows[j].name == u.rows[j].name;
    FindIs(u'.rows, name, i);
  }

  /** A removed user's name no longer logs in. */
  lemma DeletedUserIsGone(u: Table, name: string, pass: string)
    requires NamesDistinct(u.rows) && Removed(u, name).0 == 0
    ensures Login(Removed(u, name).1, name, pass) != 0
  {
    var u' := Removed(u, name).1;
    FindFromFinds(u.rows, name, 0);
    var i := Find(u.rows, name);
    forall j | 0 <= j < |u'.rows| ensures u'.rows[j].name != name {
      assert u'.rows[j] == u.rows[if j < i then j else j + 1];
    }
    FindNone(u'.rows, name);
  }

  /** The name an operation is about; none for a resize, and what is kept of it for an addition. */
  predicate IsAbout(op: Op, name: string) {
    match op
    case Resize(_, _) => false
    case Add(added, _, _) => Kept(added) == name
    case Remove(n) => n == name
    case Status(n, _) => n == name
    case Password(n, _, _) => n == name
  }

  /** Taking a row out moves the rows of other names but keeps them. */
  lemma FindWithout(rows: seq<Row>, i: nat, other: string)
    requires i < |rows| && rows[i].name != other
    ensures var k, k' := Find(rows, other), Find(Without(rows, i), other);
            if k < 0 then k' < 0 else k' >= 0 && Without(rows, i)[k'] == rows[k]
  {
    var rows' := Without(rows, i);
    FindFromFinds(rows, other, 0);
    var k := Find(rows, other);
    assert forall j :: 0 <= j < |rows'| ==> rows'[j] == rows[if j < i then j else j + 1];
    if k >= 0 {
      FindIs(rows', other, if k < i then k else k - 1);
    } else {
      FindNone(rows', other);
    }
  }

  /** Rows that keep their names, and new ones of another name, do not disturb a lookup. */
  lemma FindSame(rows: seq<Row>, rows': seq<Row>, other: string)
    requires |rows| <= |rows'| && forall j :: 0 <= j < |rows| ==> rows'[j].name == rows[j].name
    requires forall j :: |rows| <= j < |rows'| ==> rows'[j].name != other
    ensures Find(rows', other) == Find(rows, other)
  {
    FindFromFinds(rows, other, 0);
    if Find(rows, other) >= 0 {
      FindIs(rows', other, Find(rows, other));
    } else {
      FindNone(rows', other);
    }
  }

  /** No operation changes the row of another name, nor what it can log in with. */
  lemma OthersUntouched(u: Table, op: Op, other: string, pass: string)
    requires !IsAbout(op, other)
    ensures Login(Do(u, op), other, pass) == Login(u, other, pass)
    ensures var (k, k') := (Find(u.rows, other), Find(Do(u, op).rows, other));
            if k < 0 then k' < 0 else k' >= 0 && Do(u, op).rows[k'] == u.rows[k]
  {
    hide FindFrom, Find;
    if op.Remove? {
      if Removed(u, op.name).0 == 0 {
        FindWithout(u.rows, Find(u.rows, op.name), other);
      }
    } else {
      FindSame(u.rows, Do(u, op).rows, other);
    }
  }

  // ---------------------------------------------------------------- the table in place

  class UserTable {
    var users: array<Row>
    var cantUsers: nat
    var admins: nat
    var maxUsers: nat
    ghost var live: set<nat>

    ghost predicate InBounds()
      reads this
    {
      cantUsers <= maxUsers < UINT && cantUsers <= users.Length
    }

    ghost function View(): Table
      reads this, users
      requires InBounds()
    {
      Table(users[..cantUsers], admins, maxUsers, users.Length, live)
    }

    /** The globals as the program starts, and `init_users`. */
    constructor (access: nat)
      ensures InBounds() && fresh(users)
      ensures View() == Table([Row("admin", "admin", ADMIN, access)], 1, 10, 10, {access})
    {
      cantUsers, admins, maxUsers, live := 0, 0, 10, {};
      users := new Row[10](_ => Row("", "", COMMONER, 0));
      new;
      var _, _ := NewUser("admin", "admin", access);
      assert View().rows == [Row("admin", "admin", COMMONER, access)];
      ChangeStatus("admin", ADMIN);
      assert View().rows == [Row("admin", "admin", ADMIN, access)];
    }

    /** `init_users`: -1, here null, when there is no memory for the array. */
    static method Initialize(memory: bool, access: nat) returns (t: UserTable?)
      ensures t != null <==> memory
      ensures t != null ==> fresh(t) && fresh(t.users) && t.InBounds() && Good(t.View()) && NamesDistinct(t.View().rows)
    {
      if !memory {
        return null;
      }
      t := new UserTable(access);
      InitialIsGood(access);
    }

    /** `user_exists`. */
    method UserExists(name: string) returns (index: int)
      requires InBounds()
      ensures index == Find(View().rows, name)
    {
      var i := 0;
      while i < cantUsers
        invariant 0 <= i <= cantUsers
        invariant Find(View().rows, name) == FindFrom(View().rows, name, i)
      {
        if users[i].name == name {
          return i;
        }
        i := i + 1;
      }
      return -1;
    }

    /** `new_user`; `ok` is false when the row would be written past the end of the array. */
    method NewUser(name: string, pass: string, access: nat) returns (ok: bool, r: int)
      requires InBounds() && access !in live
      modifies this`cantUsers, this`live, users
      ensures ok <==> !Overruns(old(View()), Add(name, pass, access))
      ensures ok ==> InBounds() && (r, View()) == Added(old(View()), name, pass, access)
    {
      if name == "" || pass == "" {
        return true, -1;
      }
      var index := UserExists(name);
      if index >= 0 {
        return true, -1;
      }
      if cantUsers >= maxUsers {
        return true, -1;
      }
      if cantUsers >= users.Length {
        return false, -1;
      }
      users[cantUsers] := Row(Kept(name), Kept(pass), COMMONER, access);
      live := live + {access};
      cantUsers := cantUsers + 1;
      assert View().rows == old(View()).rows + [Row(Kept(name), Kept(pass), COMMONER, access)];
      return true, 0;
    }

    method ChangeStatus(name: string, newStatus: int)
      requires InBounds()
      modifies this`admins, users
      ensures InBounds() && View() == WithStatus(old(View()), name, newStatus)
    {
      var index := UserExists(name);
      if index < 0 {
        return;
      }
      var oldStatus := users[index].status;
      if oldStatus == newStatus {
        return;
      }
      users[index] := users[index].(status := newStatus);
      if oldStatus == ADMIN && newStatus != ADMIN {
        admins := (admins + UINT - 1) % UINT;
      } else if oldStatus != ADMIN && newStatus == ADMIN {
        admins := (admins + 1) % UINT;
      }
    }

    method ChangePassword(name: string, oldPass: string, newPass: string) returns (r: int)
      requires InBounds()
      modifies users
      ensures InBounds() && (r, View()) == WithPassword(old(View()), name, oldPass, newPass)
    {
      var index := UserExists(name);
      if index == -1 {
        return -1;
      }
      if users[index].pass == oldPass {
        users[index] := users[index].(pass := Kept(newPass));
        return 0;
      }
      return -1;
    }

    /** Every row after `index` takes the place of the one before. */
    method ShiftDown(index: nat)
      requires InBounds() && index < cantUsers
      modifies users
      ensures users[..cantUsers - 1] == Without(old(users[..cantUsers]), index)
    {
      var i := index;
      while i < cantUsers - 1
        invariant index <= i <= cantUsers - 1
        invariant forall j :: 0 <= j < index ==> users[j] == old(users[j])
        invariant forall j :: index <= j < i ==> users[j] == old(users[j + 1])
        invariant forall j :: i <= j < cantUsers ==> users[j] == old(users[j])
      {
        users[i] := users[i + 1];
        i := i + 1;
      }
    }

    method DeleteUser(name: string) returns (r: int)
      requires InBounds()
      modifies this`cantUsers, this`admins, this`live, users
      ensures InBounds() && (r, View()) == Removed(old(View()), name)
    {
      var index := UserExists(name);
      if index < 0 {
        return -1;
      }
      if users[index].status == ADMIN {
        if admins == 1 {
          return -1;
        }
        admins := (admins + UINT - 1) % UINT;
      }
      live := live - {users[index].access};
      ShiftDown(index);
      cantUsers := cantUsers - 1;
      return 0;
    }

    method UserLogin(name: string, password: string) returns (r: int)
      requires InBounds()
      ensures r == Login(View(), name, password)
    {
      var index := UserExists(name);
      if index < 0 {
        return -1;
      }
      return if users[index].pass != password then -1 else 0;
    }

    /** `handle_set_max_users` after its number has been parsed; false when `realloc` cuts off rows that are in use. */
    method SetMaxUsers(limit: int, granted: bool) returns (ok: bool)
      requires InBounds()
      modifies this`users, this`maxUsers
      ensures ok <==> !Overruns(old(View()), Resize(limit, granted))
      ensures ok ==> InBounds() && View() == Resized(old(View()), limit, granted)
    {
      if limit <= 0 {
        return true;
      }
      if limit % UINT < cantUsers {
        return true;
      }
      if !granted {
        return true;
      }
      if Room(limit) < cantUsers {
        return false;
      }
      users := Reallocated(Room(limit));
      maxUsers := limit % UINT;
      return true;
    }

    /** `realloc`: an array of the new length that starts like the old one. */
    method Reallocated(length: nat) returns (a: array<Row>)
      requires cantUsers <= users.Length && cantUsers <= length
      ensures fresh(a) && a.Length == length && a[..cantUsers] == users[..cantUsers]
    {
      a := new Row[length](_ => Row("", "", COMMONER, 0));
      var i := 0;
      while i < length && i < users.Length
        invariant 0 <= i <= length && i <= users.Length
        invariant a[..i] == users[..i]
      {
        a[i] := users[i];
        i := i + 1;
      }
      assert a[..cantUsers] == a[..i][..cantUsers] && users[..cantUsers] == users[..i][..cantUsers];
    }
  }

  /** The table that `init_users` leaves meets the invariant. */
  lemma InitialIsGood(access: nat)
    ensures var u := Table([Row("admin", "admin", ADMIN, access)], 1, 10, 10, {access});
            Good(u) && NamesDistinct(u.rows)
  {
    var u := Table([Row("admin", "admin", ADMIN, access)], 1, 10, 10, {access});
    assert u.rows[0].access == access;
    AdminsSnoc([], u.rows[0]);
    assert [] + [u.rows[0]] == u.rows;
  }
}
