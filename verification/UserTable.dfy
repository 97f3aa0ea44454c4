/** The per-event user dimension table and its bulk upsert.

    Upstream ids are stored as canonical decimal strings and are integers here.
    Profile columns are represented by their stored digest. */
module UserTable {
  import opened RankingTables

  datatype Result<+T> = Ok(value: T) | Err

  datatype UserDim = UserDim(name: string, team: Option<int>, uniqueId: Option<string>, profileHash: int)
  datatype UserRow = UserRow(
    key: nat, name: string, team: Option<int>, uniqueId: Option<string>, profileHash: Option<int>)

  const INSERT_CHUNK: nat := 500

  function Or<T>(first: Option<T>, second: Option<T>): Option<T> {
    if first.Some? then first else second
  }

  predicate NeedsWrite(row: UserRow, info: UserDim, unique: bool) {
    || row.name != info.name
    || (info.team.Some? && row.team != info.team)
    || (unique && row.uniqueId != info.uniqueId)
    || row.profileHash != Some(info.profileHash)
  }

  predicate UsesUniqueIds(users: map<int, UserDim>) {
    exists id | id in users :: users[id].uniqueId.Some?
  }

  /** Nothing in the table disagrees with the payload. */
  ghost predicate Settled(rows: map<int, UserRow>, users: map<int, UserDim>) {
    forall id | id in users :: id in rows && !NeedsWrite(rows[id], users[id], UsesUniqueIds(users))
  }

  // ------------------------------------------------- what an upsert may change

  /** `after` is `before` brought up to `info`: an existing key stays, and a team
      that is stored stays unless the payload names one. */
  ghost predicate BroughtUp(before: Option<UserRow>, after: UserRow, info: UserDim, unique: bool) {
    && after.name == info.name
    && after.profileHash == Some(info.profileHash)
    && after.uniqueId == (if unique then info.uniqueId else if before.Some? then before.value.uniqueId else None)
    && (before.Some? ==> after.key == before.value.key)
    && after.team == Or(info.team, if before.Some? then before.value.team else None)
  }

  function Lookup<T>(m: map<int, T>, id: int): Option<T> {
    if id in m then Some(m[id]) else None
  }

  ghost predicate Injective(rows: map<int, UserRow>) {
    forall a, b | a in rows && b in rows && rows[a].key == rows[b].key :: a == b
  }

  /** What every call keeps, however far it got: rows survive with their key,
      their team is not lost, and only users of the payload are touched. */
  ghost predicate Extends(was: map<int, UserRow>, now: map<int, UserRow>, users: map<int, UserDim>) {
    && (forall id | id in was :: id in now && now[id].key == was[id].key && (was[id].team.Some? ==> now[id].team.Some?))
    && (forall id | id in now :: id in was || id in users)
    && (forall id | id in now && Lookup(was, id) != Some(now[id]) ::
          id in users && BroughtUp(Lookup(was, id), now[id], users[id], UsesUniqueIds(users)))
  }

  /** What a successful call achieves. */
  ghost predicate Upserted(was: map<int, UserRow>, now: map<int, UserRow>, users: map<int, UserDim>) {
    && Extends(was, now, users)
    && forall id | id in users :: id in now && BroughtUp(Lookup(was, id), now[id], users[id], UsesUniqueIds(users))
  }

  lemma SettledIsUpToDate(row: UserRow, info: UserDim, unique: bool)
    ensures !NeedsWrite(row, info, unique) <==> BroughtUp(Some(row), row, info, unique)
  {
  }

  /** The upsert is idempotent: after a successful call the same payload finds
      nothing to write. */
  lemma UpsertSettles(was: map<int, UserRow>, now: map<int, UserRow>, users: map<int, UserDim>)
    requires Upserted(was, now, users)
    ensures Settled(now, users)
  {
  }

  lemma NothingToUpsert(rows: map<int, UserRow>)
    ensures Upserted(rows, rows, map[])
  {
  }

  /** Over two calls keys stay and teams stay, whatever the second payload says. */
  lemma ExtendsCompose(a: map<int, UserRow>, b: map<int, UserRow>, c: map<int, UserRow>,
                       u1: map<int, UserDim>, u2: map<int, UserDim>, id: int)
    requires Extends(a, b, u1) && Extends(b, c, u2) && id in a
    ensures id in c && c[id].key == a[id].key && (a[id].team.Some? ==> c[id].team.Some?)
    ensures a[id].team.Some? && (id in u1 ==> u1[id].team.None?) && (id in u2 ==> u2[id].team.None?) ==> c[id].team == a[id].team
  {
    assert Lookup(a, id) == Some(a[id]) && Lookup(b, id) == Some(b[id]);
  }

  ghost predicate Distinct(upserts: seq<(int, Option<int>)>) {
    forall i, j | 0 <= i < j < |upserts| :: upserts[i].0 != upserts[j].0
  }

  /** The team each upsert carries is the payload's, or else the stored one. */
  ghost predicate Prepared(rows: map<int, UserRow>, upserts: seq<(int, Option<int>)>, users: map<int, UserDim>) {
    && Distinct(upserts)
    && forall k | 0 <= k < |upserts| ::
         && upserts[k].0 in users
         && upserts[k].1 == Or(users[upserts[k].0].team, if upserts[k].0 in rows then rows[upserts[k].0].team else None)
  }

  ghost predicate Has(upserts: seq<(int, Option<int>)>, id: int) {
    exists k :: 0 <= k < |upserts| && upserts[k].0 == id
  }

  lemma PlanIsRight(rows: map<int, UserRow>, users: map<int, UserDim>, unique: bool,
                    dirty: seq<(int, Option<int>)>, missing: seq<int>, upserts: seq<(int, Option<int>)>)
    requires Distinct(dirty)
    requires forall k | 0 <= k < |dirty| ::
               && dirty[k].0 in users && dirty[k].0 in rows && NeedsWrite(rows[dirty[k].0], users[dirty[k].0], unique)
               && dirty[k].1 == Or(users[dirty[k].0].team, rows[dirty[k].0].team)
    requires forall id | id in users && id in rows && NeedsWrite(rows[id], users[id], unique) :: Has(dirty, id)
    requires forall id :: id in missing <==> id in users && id !in rows
    requires forall i, j | 0 <= i < j < |missing| :: missing[i] != missing[j]
    requires |upserts| == |dirty| + |missing|
    requires forall k | 0 <= k < |dirty| :: upserts[k] == dirty[k]
    requires forall k | 0 <= k < |missing| :: missing[k] in users && upserts[|dirty| + k] == (missing[k], users[missing[k]].team)
    ensures Prepared(rows, upserts, users)
    ensures forall id :: Has(upserts, id) <==> id in users && (id !in rows || NeedsWrite(rows[id], users[id], unique))
  {
    forall k | |dirty| <= k < |upserts| ensures upserts[k] == (missing[k - |dirty|], users[missing[k - |dirty|]].team) && upserts[k].0 in missing {
      assert upserts[|dirty| + (k - |dirty|)] == upserts[k];
    }
    forall id | id in users && (id !in rows || NeedsWrite(rows[id], users[id], unique)) ensures Has(upserts, id) {
      if id in rows {
        var k :| 0 <= k < |dirty| && dirty[k].0 == id;
        assert upserts[k].0 == id;
      } else {
        var k :| 0 <= k < |missing| && missing[k] == id;
        assert upserts[|dirty| + k].0 == id;
      }
    }
  }

  lemma EmptyPlan(rows: map<int, UserRow>, users: map<int, UserDim>, upserts: seq<(int, Option<int>)>)
    requires var unique := UsesUniqueIds(users);
             forall id :: Has(upserts, id) <==> id in users && (id !in rows || NeedsWrite(rows[id], users[id], unique))
    ensures upserts == [] <==> Settled(rows, users)
  {
    if upserts != [] { assert Has(upserts, upserts[0].0); }
    if upserts == [] {
      forall id | id in users ensures id in rows && !NeedsWrite(rows[id], users[id], UsesUniqueIds(users)) {
        assert !Has(upserts, id);
      }
    }
  }

  method Enumerate<T(==)>(s: set<T>) returns (q: seq<T>)
    ensures forall i | 0 <= i < |q| :: q[i] in s
    ensures forall x :: x in q <==> x in s
    ensures forall i, j | 0 <= i < j < |q| :: q[i] != q[j]
  {
    q := [];
    var left := s;
    while left != {}
      invariant left <= s
      invariant forall i | 0 <= i < |q| :: q[i] in s && q[i] !in left
      invariant forall x | x in s && x !in left :: x in q
      invariant forall i, j | 0 <= i < j < |q| :: q[i] != q[j]
      decreases left
    {
      var x :| x in left;
      assert forall y | y in q :: y in q + [x];
      q := q + [x];
      assert x in q;
      left := left - {x};
    }
  }

  class UserTable {
    var rows: map<int, UserRow>
    var nextKey: nat                 // auto-increment; may skip values
    var written: nat                 // rows sent in upsert statements

    ghost predicate Valid()
      reads this
    {
      Injective(rows) && forall id | id in rows :: rows[id].key < nextKey
    }

    constructor ()
      ensures Valid() && rows == map[] && written == 0
    {
      rows := map[];
      nextKey := 1;
      written := 0;
    }

    /** One row of `INSERT .. ON CONFLICT (user_id) DO UPDATE`. */
    method UpsertRow(id: int, team: Option<int>, info: UserDim, unique: bool)
      requires Valid()
      modifies this
      ensures Valid() && written == old(written) + 1
      ensures id in rows && rows == old(rows)[id := rows[id]]
      ensures id in old(rows) ==> rows[id].key == old(rows)[id].key
      ensures rows[id].name == info.name && rows[id].team == team && rows[id].profileHash == Some(info.profileHash)
      ensures rows[id].uniqueId == (if unique then info.uniqueId else if id in old(rows) then old(rows)[id].uniqueId else None)
    {
      var fresher :| fresher >= nextKey;
      var key := if id in rows then rows[id].key else fresher;
      var uniqueId := if unique then info.uniqueId else if id in rows then rows[id].uniqueId else None;
      rows := rows[id := UserRow(key, info.name, team, uniqueId, Some(info.profileHash))];
      nextKey := fresher + 1;
      written := written + 1;
    }

    /** SELECT of the stored rows in chunks, comparing each with the payload. */
    method Compare(users: map<int, UserDim>, all: seq<int>, unique: bool)
      returns (ok: bool, out: map<int, nat>, dirty: seq<(int, Option<int>)>)
      requires forall id | id in all :: id in users
      requires forall i, j | 0 <= i < j < |all| :: all[i] != all[j]
      ensures ok ==> forall id :: id in out <==> id in all && id in rows
      ensures ok ==> forall id | id in out :: out[id] == rows[id].key
      ensures ok ==> forall id | id in all && id in rows && NeedsWrite(rows[id], users[id], unique) ::
                Has(dirty, id)
      ensures ok ==> forall k | 0 <= k < |dirty| ::
                && dirty[k].0 in all && dirty[k].0 in rows && NeedsWrite(rows[dirty[k].0], users[dirty[k].0], unique)
                && dirty[k].1 == Or(users[dirty[k].0].team, rows[dirty[k].0].team)
      ensures ok ==> Distinct(dirty)
    {
      out, dirty, ok := map[], [], true;
      var i := 0;
      while i < |all|
        invariant 0 <= i <= |all|
        invariant forall id :: id in out <==> id in all[..i] && id in rows
        invariant forall id | id in out :: out[id] == rows[id].key
        invariant forall id | id in all[..i] && id in rows && NeedsWrite(rows[id], users[id], unique) ::
            Has(dirty, id)
        invariant forall k | 0 <= k < |dirty| ::
            && dirty[k].0 in all && dirty[k].0 in rows && NeedsWrite(rows[dirty[k].0], users[dirty[k].0], unique)
            && dirty[k].1 == Or(users[dirty[k].0].team, rows[dirty[k].0].team)
        invariant forall k | 0 <= k < |dirty| :: dirty[k].0 in all[..i]
        invariant Distinct(dirty)
      {
        if i % INSERT_CHUNK == 0 {
          var failed: bool := *;
          if failed { return false, out, dirty; }
        }
        var id := all[i];
        assert all[..i + 1] == all[..i] + [id];
        if id in rows {
          ghost var before := dirty;
          if NeedsWrite(rows[id], users[id], unique) {
            dirty := dirty + [(id, Or(users[id].team, rows[id].team))];
            assert dirty[|before|].0 == id;
          }
          assert forall k | 0 <= k < |before| :: dirty[k] == before[k];
          out := out[id := rows[id].key];
        }
        i := i + 1;
      }
    }

    /** Multi-row upserts in chunks; a statement that fails leaves its whole chunk
        unwritten and ends the call. */
    method WriteChunks(upserts: seq<(int, Option<int>)>, users: map<int, UserDim>, unique: bool) returns (ok: bool)
      requires Valid() && Prepared(rows, upserts, users)
      modifies this
      ensures Valid()
      ensures forall id | id in old(rows) :: id in rows
      ensures forall id | id in rows && Lookup(old(rows), id) != Some(rows[id]) ::
                id in users && BroughtUp(Lookup(old(rows), id), rows[id], users[id], unique)
      ensures ok ==> forall k | 0 <= k < |upserts| ::
                upserts[k].0 in rows
                && BroughtUp(Lookup(old(rows), upserts[k].0), rows[upserts[k].0], users[upserts[k].0], unique)
      ensures ok ==> written == old(written) + |upserts|
    {
      var i := 0;
      while i < |upserts|
        invariant 0 <= i <= |upserts|
        invariant Valid()
        invariant written == old(written) + i
        invariant forall id | id in old(rows) :: id in rows
        invariant forall k | i <= k < |upserts| :: Lookup(rows, upserts[k].0) == Lookup(old(rows), upserts[k].0)
        invariant forall id | id in rows && Lookup(old(rows), id) != Some(rows[id]) ::
            id in users && BroughtUp(Lookup(old(rows), id), rows[id], users[id], unique)
        invariant forall k | 0 <= k < i ::
            upserts[k].0 in rows
            && BroughtUp(Lookup(old(rows), upserts[k].0), rows[upserts[k].0], users[upserts[k].0], unique)
      {
        if i % INSERT_CHUNK == 0 {
          var failed: bool := *;
          if failed { return false; }
        }
        UpsertRow(upserts[i].0, upserts[i].1, users[upserts[i].0], unique);
        i := i + 1;
      }
      ok := true;
    }

    /** SELECT of the keys of the rows just inserted. */
    method ReadBack(missing: seq<int>, found: map<int, nat>) returns (ok: bool, out: map<int, nat>)
      ensures ok ==> forall id :: id in out <==> id in found || (id in missing && id in rows)
      ensures ok ==> forall id | id in out :: if id in missing && id in rows then out[id] == rows[id].key else out[id] == found[id]
    {
      out, ok := found, true;
      var i := 0;
      while i < |missing|
        invariant 0 <= i <= |missing|
        invariant forall id :: id in out <==> id in found || (id in missing[..i] && id in rows)
        invariant forall id | id in out :: if id in missing[..i] && id in rows then out[id] == rows[id].key else out[id] == found[id]
      {
        if i % INSERT_CHUNK == 0 {
          var failed: bool := *;
          if failed { return false, out; }
        }
        if missing[i] in rows { out := out[missing[i] := rows[missing[i]].key]; }
        i := i + 1;
      }
    }

    /** Reads the stored rows and decides what has to be written. */
    method Plan(users: map<int, UserDim>, unique: bool)
      returns (ok: bool, out: map<int, nat>, missing: seq<int>, upserts: seq<(int, Option<int>)>)
      requires Valid()
      ensures ok ==> Prepared(rows, upserts, users)
      ensures ok ==> forall id :: id in out <==> id in users && id in rows
      ensures ok ==> forall id | id in out :: out[id] == rows[id].key
      ensures ok ==> forall id :: id in missing <==> id in users && id !in rows
      ensures ok ==> forall id :: Has(upserts, id) <==> id in users && (id !in rows || NeedsWrite(rows[id], users[id], unique))
    {
      var all := Enumerate(users.Keys);
      var dirty;
      ok, out, dirty := Compare(users, all, unique);
      missing, upserts := [], [];
      if ok {
        missing := Missing(all, out);
        upserts := dirty;
        assert forall k | 0 <= k < |missing| :: missing[k] in users;
        for i := 0 to |missing|
          invariant |upserts| == |dirty| + i
          invariant forall k | 0 <= k < |dirty| :: upserts[k] == dirty[k]
          invariant forall k | 0 <= k < i :: missing[k] in users && upserts[|dirty| + k] == (missing[k], users[missing[k]].team)
        {
          upserts := upserts + [(missing[i], users[missing[i]].team)];
        }
        PlanIsRight(rows, users, unique, dirty, missing, upserts);
      }
    }

    /** The bulk upsert.  Any statement may fail; a failed call is an Err. */
    method GetOrCreateKeys(users: map<int, UserDim>) returns (r: Result<map<int, nat>>)
      requires Valid()
      modifies this
      ensures Valid()
      ensures Extends(old(rows), rows, users)
      ensures r.Ok? ==> Upserted(old(rows), rows, users)
      ensures r.Ok? ==> forall id :: id in r.value <==> id in users
      ensures r.Ok? ==> forall id | id in users :: r.value[id] == rows[id].key
      ensures r.Ok? ==> forall a, b | a in users && b in users && r.value[a] == r.value[b] :: a == b
      ensures Settled(old(rows), users) ==> rows == old(rows) && written == old(written)
      ensures r.Ok? && written == old(written) ==> Settled(old(rows), users)
    {
      var unique := UsesUniqueIds(users);
      var ok, out, missing, upserts := Plan(users, unique);
      if !ok { return Err; }
      EmptyPlan(rows, users, upserts);
      if upserts == [] { return Ok(out); }
      ok := WriteChunks(upserts, users, unique);
      if !ok { return Err; }
      if missing == [] { return Ok(out); }
      ok, out := ReadBack(missing, out);
      if !ok || |out| != |users| { return Err; }
      r := Ok(out);
    }
  }

  method Missing(all: seq<int>, out: map<int, nat>) returns (missing: seq<int>)
    requires forall i, j | 0 <= i < j < |all| :: all[i] != all[j]
    ensures forall k | 0 <= k < |missing| :: missing[k] in all && missing[k] !in out
    ensures forall id :: id in missing <==> id in all && id !in out
    ensures forall i, j | 0 <= i < j < |missing| :: missing[i] != missing[j]
  {
    missing := [];
    for i := 0 to |all|
      invariant forall k | 0 <= k < |missing| :: missing[k] in all[..i] && missing[k] !in out
      invariant forall id | id in all[..i] && id !in out :: id in missing
      invariant forall i, j | 0 <= i < j < |missing| :: missing[i] != missing[j]
    {
      assert all[..i + 1] == all[..i] + [all[i]];
      if all[i] !in out { missing := missing + [all[i]]; }
    }
  }
}
