/**
 * The remote JSON document of db.py, held in memory: the `bot_info` list of
 * `{id, category, info}` entries, the registered `users` and the
 * `admin_ids`. Every operation reads the whole document and writes it back
 * whole; `readable` and `writable` say whether that read and that write
 * succeed, and `writes` counts the writes that happened.
 */
module Db {
  import opened Wrappers
  import opened Strings

  /** A `bot_info` entry; `id` is absent in entries written by hand. */
  datatype Entry = Entry(id: Option<int>, category: string, info: string)

  /** An element of `admin_ids`: a number, or a text that `int()` may or may not read. */
  datatype RawId = NumId(n: int) | TextId(s: string)

  /** `ValueError` raised before the document is read, or the `DatabaseError` every other failure becomes. */
  datatype DbError = ValueError | DatabaseError

  /** `entry.get("id", 0)` */
  function IdOrZero(e: Entry): int {
    if e.id.Some? then e.id.value else 0
  }

  /** `max([entry.get("id", 0) for entry in es], default=0)` */
  function MaxId(es: seq<Entry>): (m: int)
    ensures forall i :: 0 <= i < |es| ==> IdOrZero(es[i]) <= m
    ensures es == [] ==> m == 0
    ensures es != [] ==> exists i :: 0 <= i < |es| && IdOrZero(es[i]) == m
  {
    if es == [] then 0
    else if |es| == 1 then IdOrZero(es[0])
    else
      var m := MaxId(es[..|es| - 1]);
      var last := IdOrZero(es[|es| - 1]);
      assert forall i :: 0 <= i < |es| - 1 ==> es[i] == es[..|es| - 1][i];
      if last > m then last else m
  }

  /** The id `add_bot_info` gives a new entry: one more than the largest id present. */
  function NextId(es: seq<Entry>): (r: int)
    ensures forall i :: 0 <= i < |es| && es[i].id.Some? ==> es[i].id.value < r
  {
    MaxId(es) + 1
  }

  /** No two entries of `es` carry the same id. */
  predicate IdsUnique(es: seq<Entry>) {
    forall i, j :: 0 <= i < j < |es| && es[i].id.Some? && es[j].id.Some? ==> es[i].id != es[j].id
  }

  /** Appending an entry with the next id keeps the ids unique. */
  lemma AppendNextIdKeepsUnique(es: seq<Entry>, category: string, info: string)
    requires IdsUnique(es)
    ensures IdsUnique(es + [Entry(Some(NextId(es)), category, info)])
  {
    var es' := es + [Entry(Some(NextId(es)), category, info)];
    forall i, j | 0 <= i < j < |es'| && es'[i].id.Some? && es'[j].id.Some? ensures es'[i].id != es'[j].id {
      if j == |es| {
        assert es'[i] == es[i];
      } else {
        assert es'[i] == es[i] && es'[j] == es[j];
      }
    }
  }

  /** The entry `delete_bot_info` removes. */
  predicate MatchesInfo(e: Entry, category: string, info: string) {
    e.category == category && e.info == info
  }

  /** Some entry of `es` has this category and info. */
  predicate HasEntry(es: seq<Entry>, category: string, info: string) {
    exists i :: 0 <= i < |es| && MatchesInfo(es[i], category, info)
  }

  /** `[entry for entry in es if not (entry["category"] == category and entry["info"] == info)]` */
  function KeepUnlessInfo(es: seq<Entry>, category: string, info: string): (r: seq<Entry>)
    ensures |r| <= |es|
    ensures forall e :: e in r <==> e in es && !MatchesInfo(e, category, info)
    ensures |r| == |es| <==> forall i :: 0 <= i < |es| ==> !MatchesInfo(es[i], category, info)
  {
    if es == [] then []
    else
      var init := es[..|es| - 1];
      var last := es[|es| - 1];
      var rest := KeepUnlessInfo(init, category, info);
      assert forall i :: 0 <= i < |init| ==> init[i] == es[i];
      assert es == init + [last];
      rest + (if MatchesInfo(last, category, info) then [] else [last])
  }

  /** One more entry of the list is kept exactly when it does not match. */
  lemma KeepUnlessInfoStep(es: seq<Entry>, i: nat, category: string, info: string)
    requires i < |es|
    ensures KeepUnlessInfo(es[..i + 1], category, info)
         == KeepUnlessInfo(es[..i], category, info) + (if MatchesInfo(es[i], category, info) then [] else [es[i]])
  {
    assert es[..i + 1][..i] == es[..i];
  }

  /** What the filter by info keeps of one entry. */
  function KeptByInfo(e: Entry, category: string, info: string): seq<Entry> {
    if MatchesInfo(e, category, info) then [] else [e]
  }

  lemma KeepUnlessInfoUnfold(es: seq<Entry>, category: string, info: string)
    requires es != []
    ensures KeepUnlessInfo(es, category, info)
         == KeepUnlessInfo(es[..|es| - 1], category, info) + KeptByInfo(es[|es| - 1], category, info)
  {
  }

  lemma KeepUnlessInfoDropLast(a: seq<Entry>, b: seq<Entry>, category: string, info: string)
    requires b != []
    ensures KeepUnlessInfo(a + b, category, info)
         == KeepUnlessInfo(a + b[..|b| - 1], category, info) + KeptByInfo(b[|b| - 1], category, info)
  {
    KeepUnlessInfoUnfold(a + b, category, info);
    assert (a + b)[..|a + b| - 1] == a + b[..|b| - 1];
  }

  lemma KeepUnlessInfoAppendLast(a: seq<Entry>, b: seq<Entry>, category: string, info: string)
    requires b != []
    requires KeepUnlessInfo(a + b[..|b| - 1], category, info)
          == KeepUnlessInfo(a, category, info) + KeepUnlessInfo(b[..|b| - 1], category, info)
    ensures KeepUnlessInfo(a + b, category, info) == KeepUnlessInfo(a, category, info) + KeepUnlessInfo(b, category, info)
  {
    var ka := KeepUnlessInfo(a, category, info);
    var ki := KeepUnlessInfo(b[..|b| - 1], category, info);
    var kept := KeptByInfo(b[|b| - 1], category, info);
    assert KeepUnlessInfo(b, category, info) == ki + kept by {
      KeepUnlessInfoUnfold(b, category, info);
    }
    assert KeepUnlessInfo(a + b, category, info) == (ka + ki) + kept by {
      KeepUnlessInfoDropLast(a, b, category, info);
    }
    ConcatAssoc(ka, ki, kept);
  }

  lemma ConcatAssoc<T>(x: seq<T>, y: seq<T>, z: seq<T>)
    ensures (x + y) + z == x + (y + z)
  {
  }

  /** The filter keeps the order of what it keeps: filtering two lists one after the other filters each in turn. */
  lemma {:induction false} KeepUnlessInfoAppend(a: seq<Entry>, b: seq<Entry>, category: string, info: string)
    ensures KeepUnlessInfo(a + b, category, info) == KeepUnlessInfo(a, category, info) + KeepUnlessInfo(b, category, info)
  {
    if b == [] {
      assert KeepUnlessInfo(b, category, info) == [];
      assert a + b == a;
    } else {
      KeepUnlessInfoAppend(a, b[..|b| - 1], category, info);
      KeepUnlessInfoAppendLast(a, b, category, info);
    }
  }

  /** The filter drops something exactly when some entry matches. */
  lemma KeepUnlessInfoRemoved(es: seq<Entry>, category: string, info: string)
    ensures |KeepUnlessInfo(es, category, info)| != |es| <==> HasEntry(es, category, info)
  {
  }

  /**
   * `[entry for entry in es if not (entry["category"] == category and entry["id"] == id)]`;
   * `None` is the `KeyError` of an entry of that category without an id.
   */
  function KeepUnlessId(es: seq<Entry>, category: string, id: int): (r: Option<seq<Entry>>)
    ensures r.None? <==> exists i :: 0 <= i < |es| && es[i].category == category && es[i].id.None?
    ensures r.Some? ==> |r.value| <= |es|
    ensures r.Some? ==> forall e :: e in r.value <==> e in es && !(e.category == category && e.id == Some(id))
    ensures r.Some? ==> (|r.value| == |es| <==> forall i :: 0 <= i < |es| ==> !(es[i].category == category && es[i].id == Some(id)))
  {
    if es == [] then Some([])
    else
      var init := es[..|es| - 1];
      var last := es[|es| - 1];
      assert forall i :: 0 <= i < |init| ==> init[i] == es[i];
      assert es == init + [last];
      match KeepUnlessId(init, category, id)
      case None => None
      case Some(rest) =>
        if last.category == category && last.id.None? then None
        else Some(rest + (if last.category == category && last.id == Some(id) then [] else [last]))
  }

  /** `users` after registering `chat`: appended once, at the end. */
  function WithUser(users: seq<int>, chat: int): (r: seq<int>)
    ensures chat in r
    ensures forall u :: u in r <==> u in users || u == chat
    ensures |users| <= |r| <= |users| + 1 && r[..|users|] == users
  {
    if chat in users then users else users + [chat]
  }

  /** Registering a user twice is registering once. */
  lemma WithUserIdempotent(users: seq<int>, chat: int)
    ensures WithUser(WithUser(users, chat), chat) == WithUser(users, chat)
    ensures chat in users ==> WithUser(users, chat) == users
  {
  }

  /** `int(x)` for one element of `admin_ids`. */
  function ToInt(x: RawId): Option<int> {
    match x
    case NumId(n) => Some(n)
    case TextId(s) => ParseInt(s)
  }

  /** `[int(x) for x in ids]`; `None` when some element is not a number. */
  function AdminIdsOf(ids: seq<RawId>): (r: Option<seq<int>>)
    ensures r.Some? <==> forall i :: 0 <= i < |ids| ==> ToInt(ids[i]).Some?
    ensures r.Some? ==> |r.value| == |ids| && forall i :: 0 <= i < |ids| ==> Some(r.value[i]) == ToInt(ids[i])
  {
    if ids == [] then Some([])
    else
      var init := ids[..|ids| - 1];
      assert forall i :: 0 <= i < |init| ==> init[i] == ids[i];
      match AdminIdsOf(init)
      case None => None
      case Some(rest) =>
        match ToInt(ids[|ids| - 1])
        case None => None
        case Some(n) => Some(rest + [n])
  }

  class Document {
    var botInfo: seq<Entry>
    var users: seq<int>
    var adminIds: seq<RawId>
    var readable: bool
    var writable: bool
    var writes: nat

    constructor (botInfo: seq<Entry>, users: seq<int>, adminIds: seq<RawId>, readable: bool, writable: bool)
      ensures this.botInfo == botInfo && this.users == users && this.adminIds == adminIds
      ensures this.readable == readable && this.writable == writable && writes == 0
    {
      this.botInfo := botInfo;
      this.users := users;
      this.adminIds := adminIds;
      this.readable := readable;
      this.writable := writable;
      writes := 0;
    }

    /**
     * `add_bot_info`: rejects an empty category or info before reading;
     * otherwise appends an entry whose id is one more than the largest id
     * present and returns it.
     */
    method AddBotInfo(category: string, info: string) returns (r: Result<Entry, DbError>)
      modifies this
      ensures r == Err(ValueError) <==> category == "" || info == ""
      ensures r.Ok? <==> category != "" && info != "" && readable && writable
      ensures r.Err? && r != Err(ValueError) ==> r == Err(DatabaseError)
      ensures r.Ok? ==> r.value == Entry(Some(NextId(old(botInfo))), category, info)
                        && botInfo == old(botInfo) + [r.value] && writes == old(writes) + 1
      ensures r.Err? ==> botInfo == old(botInfo) && writes == old(writes)
      ensures users == old(users) && adminIds == old(adminIds)
      ensures readable == old(readable) && writable == old(writable)
    {
      if category == "" || info == "" {
        return Err(ValueError);
      }
      if !readable {
        return Err(DatabaseError);
      }
      var m := 0;
      var i := 0;
      while i < |botInfo|
        invariant 0 <= i <= |botInfo|
        invariant m == MaxId(botInfo[..i])
        modifies {}
      {
        assert botInfo[..i + 1][..i] == botInfo[..i];
        var id := IdOrZero(botInfo[i]);
        if i == 0 || id > m {
          m := id;
        }
        i := i + 1;
      }
      assert botInfo[..i] == botInfo;
      var entry := Entry(Some(m + 1), category, info);
      if !writable {
        return Err(DatabaseError);
      }
      botInfo := botInfo + [entry];
      writes := writes + 1;
      return Ok(entry);
    }

    /**
     * `delete_bot_info`: removes every entry with this category and info,
     * keeping the others in order, and tells whether anything was removed.
     */
    method DeleteBotInfo(category: string, info: string) returns (r: Result<bool, DbError>)
      modifies this
      ensures r.Ok? <==> readable && writable
      ensures r.Err? ==> r == Err(DatabaseError) && botInfo == old(botInfo) && writes == old(writes)
      ensures r.Ok? ==> botInfo == KeepUnlessInfo(old(botInfo), category, info) && writes == old(writes) + 1
      ensures r.Ok? ==> (r.value <==> HasEntry(old(botInfo), category, info))
      ensures users == old(users) && adminIds == old(adminIds)
      ensures readable == old(readable) && writable == old(writable)
    {
      if !readable {
        return Err(DatabaseError);
      }
      var es := botInfo;
      var kept: seq<Entry> := [];
      var i := 0;
      while i < |es|
        invariant 0 <= i <= |es|
        invariant kept == KeepUnlessInfo(es[..i], category, info)
        modifies {}
      {
        KeepUnlessInfoStep(es, i, category, info);
        if !MatchesInfo(es[i], category, info) {
          kept := kept + [es[i]];
        }
        i := i + 1;
      }
      assert es[..i] == es;
      KeepUnlessInfoRemoved(es, category, info);
      if !writable {
        return Err(DatabaseError);
      }
      var removed := |kept| != |botInfo|;
      botInfo := kept;
      writes := writes + 1;
      return Ok(removed);
    }

    /**
     * `delete_by_id`: removes every entry with this category and id. An
     * entry of that category without an id stops it with a `KeyError`,
     * reported as a `DatabaseError`, and nothing is written.
     */
    method DeleteById(category: string, id: int) returns (r: Result<bool, DbError>)
      modifies this
      ensures r.Ok? <==> readable && writable && KeepUnlessId(old(botInfo), category, id).Some?
      ensures r.Err? ==> r == Err(DatabaseError) && botInfo == old(botInfo) && writes == old(writes)
      ensures r.Ok? ==> botInfo == KeepUnlessId(old(botInfo), category, id).value && writes == old(writes) + 1
      ensures r.Ok? ==>
        (r.value <==> exists i :: 0 <= i < |old(botInfo)| && old(botInfo)[i].category == category && old(botInfo)[i].id == Some(id))
      ensures users == old(users) && adminIds == old(adminIds)
      ensures readable == old(readable) && writable == old(writable)
    {
      if !readable {
        return Err(DatabaseError);
      }
      var es := botInfo;
      var kept: seq<Entry> := [];
      var i := 0;
      while i < |es|
        invariant 0 <= i <= |es|
        invariant KeepUnlessId(es[..i], category, id) == Some(kept)
        modifies {}
      {
        var e := es[i];
        if e.category == category && e.id.None? {
          assert es[..i + 1][i] == e;
          assert KeepUnlessId(es[..i + 1], category, id).None?;
          KeepUnlessIdNonePrefix(es, i + 1, category, id);
          return Err(DatabaseError);
        }
        KeepUnlessIdStep(es, i, category, id, kept);
        if !(e.category == category && e.id == Some(id)) {
          kept := kept + [e];
        }
        i := i + 1;
      }
      assert es[..i] == es;
      assert KeepUnlessId(es, category, id) == Some(kept);
      if !writable {
        return Err(DatabaseError);
      }
      var removed := |kept| != |es|;
      botInfo := kept;
      writes := writes + 1;
      return Ok(removed);
    }

    /** `add_user`: appends the chat id when it is new; a known id is neither appended nor written. */
    method AddUser(chat: int) returns (r: Result<seq<int>, DbError>)
      modifies this
      ensures r.Ok? <==> readable && (chat in old(users) || writable)
      ensures r.Err? ==> r == Err(DatabaseError) && users == old(users) && writes == old(writes)
      ensures r.Ok? ==> users == WithUser(old(users), chat) && r.value == users
      ensures r.Ok? ==> writes == old(writes) + (if chat in old(users) then 0 else 1)
      ensures botInfo == old(botInfo) && adminIds == old(adminIds)
      ensures readable == old(readable) && writable == old(writable)
    {
      if !readable {
        return Err(DatabaseError);
      }
      if chat !in users {
        if !writable {
          return Err(DatabaseError);
        }
        users := users + [chat];
        writes := writes + 1;
      }
      return Ok(users);
    }

    /** `get_users`: the registered ids, or `[]` when the document cannot be read. */
    method GetUsers() returns (r: seq<int>)
      ensures r == (if readable then users else [])
    {
      if readable {
        return users;
      }
      return [];
    }

    /** `get_admin_ids`: every admin id as a number, or `[]` when the document cannot be read or an id is not a number. */
    method GetAdminIds() returns (r: seq<int>)
      ensures r == (if readable && AdminIdsOf(adminIds).Some? then AdminIdsOf(adminIds).value else [])
    {
      if !readable {
        return [];
      }
      r := [];
      var i := 0;
      while i < |adminIds|
        invariant 0 <= i <= |adminIds|
        invariant AdminIdsOf(adminIds[..i]) == Some(r)
      {
        assert adminIds[..i + 1][..i] == adminIds[..i];
        var n := ToInt(adminIds[i]);
        if n.None? {
          AdminIdsNonePrefix(adminIds, i + 1);
          return [];
        }
        r := r + [n.value];
        i := i + 1;
      }
      assert adminIds[..i] == adminIds;
    }
  }

  /** One more entry without a `KeyError` is kept or dropped by itself. */
  lemma KeepUnlessIdStep(es: seq<Entry>, i: nat, category: string, id: int, kept: seq<Entry>)
    requires i < |es| && KeepUnlessId(es[..i], category, id) == Some(kept)
    requires !(es[i].category == category && es[i].id.None?)
    ensures es[i].category == category && es[i].id == Some(id) ==> KeepUnlessId(es[..i + 1], category, id) == Some(kept)
    ensures !(es[i].category == category && es[i].id == Some(id)) ==> KeepUnlessId(es[..i + 1], category, id) == Some(kept + [es[i]])
  {
    assert es[..i + 1][..i] == es[..i];
    assert es[..i + 1][i] == es[i];
    assert kept + [] == kept;
  }

  /** What the filter by id keeps of one entry that raises no `KeyError`. */
  function KeptById(e: Entry, category: string, id: int): seq<Entry> {
    if e.category == category && e.id == Some(id) then [] else [e]
  }

  lemma KeepUnlessIdUnfold(es: seq<Entry>, category: string, id: int)
    requires es != []
    ensures var last := es[|es| - 1];
      KeepUnlessId(es, category, id).Some?
      <==> KeepUnlessId(es[..|es| - 1], category, id).Some? && !(last.category == category && last.id.None?)
    ensures KeepUnlessId(es, category, id).Some? ==>
      KeepUnlessId(es, category, id).value
      == KeepUnlessId(es[..|es| - 1], category, id).value + KeptById(es[|es| - 1], category, id)
  {
  }

  lemma KeepUnlessIdDropLast(a: seq<Entry>, b: seq<Entry>, category: string, id: int)
    requires b != []
    ensures var last := b[|b| - 1];
      KeepUnlessId(a + b, category, id).Some?
      <==> KeepUnlessId(a + b[..|b| - 1], category, id).Some? && !(last.category == category && last.id.None?)
    ensures KeepUnlessId(a + b, category, id).Some? ==>
      KeepUnlessId(a + b, category, id).value
      == KeepUnlessId(a + b[..|b| - 1], category, id).value + KeptById(b[|b| - 1], category, id)
  {
    assert (a + b)[..|a + b| - 1] == a + b[..|b| - 1];
    assert (a + b)[|a + b| - 1] == b[|b| - 1];
    KeepUnlessIdUnfold(a + b, category, id);
  }

  /** Without a `KeyError`, the filter by id keeps the order of what it keeps, as the filter by info does. */
  lemma {:induction false} KeepUnlessIdAppend(a: seq<Entry>, b: seq<Entry>, category: string, id: int)
    requires KeepUnlessId(a, category, id).Some? && KeepUnlessId(b, category, id).Some?
    ensures KeepUnlessId(a + b, category, id) == Some(KeepUnlessId(a, category, id).value + KeepUnlessId(b, category, id).value)
  {
    var ka := KeepUnlessId(a, category, id).value;
    if b == [] {
      assert KeepUnlessId(b, category, id).value == [] by {
        assert KeepUnlessId([], category, id) == Some([]);
      }
      assert KeepUnlessId(a + b, category, id) == Some(ka + []) by {
        assert a + b == a && ka + [] == ka;
      }
    } else {
      var init := b[..|b| - 1];
      var kept := KeptById(b[|b| - 1], category, id);
      var kb := KeepUnlessId(b, category, id).value;
      assert KeepUnlessId(init, category, id).Some? && kb == KeepUnlessId(init, category, id).value + kept by {
        KeepUnlessIdUnfold(b, category, id);
      }
      var ki := KeepUnlessId(init, category, id).value;
      assert KeepUnlessId(a + init, category, id) == Some(ka + ki) by {
        KeepUnlessIdAppend(a, init, category, id);
      }
      assert KeepUnlessId(a + b, category, id) == Some((ka + ki) + kept) by {
        KeepUnlessIdUnfold(b, category, id);
        KeepUnlessIdDropLast(a, b, category, id);
      }
      ConcatAssoc(ka, ki, kept);
    }
  }

  /** A `KeyError` in a prefix is a `KeyError` for the whole list. */
  lemma KeepUnlessIdNonePrefix(es: seq<Entry>, k: nat, category: string, id: int)
    requires k <= |es| && KeepUnlessId(es[..k], category, id).None?
    ensures KeepUnlessId(es, category, id).None?
  {
    var i :| 0 <= i < k && es[..k][i].category == category && es[..k][i].id.None?;
    assert es[i] == es[..k][i];
  }

  lemma AdminIdsNonePrefix(ids: seq<RawId>, k: nat)
    requires k <= |ids| && AdminIdsOf(ids[..k]).None?
    ensures AdminIdsOf(ids).None?
  {
    var i :| 0 <= i < k && ToInt(ids[..k][i]).None?;
    assert ids[i] == ids[..k][i];
  }

  /** The entry `add_bot_info` creates gets an id no entry had, so it can later be deleted by id alone. */
  lemma AddedIdIsFresh(es: seq<Entry>, category: string, info: string)
    ensures forall i :: 0 <= i < |es| ==> es[i].id != Some(NextId(es))
  {
  }

  /** After `delete_bot_info` nothing matching is left, and every other entry is still there. */
  lemma DeleteRemovesExactly(es: seq<Entry>, category: string, info: string)
    ensures forall e :: e in KeepUnlessInfo(es, category, info) ==> !MatchesInfo(e, category, info)
    ensures forall e :: e in es && !MatchesInfo(e, category, info) ==> e in KeepUnlessInfo(es, category, info)
    ensures KeepUnlessInfo(KeepUnlessInfo(es, category, info), category, info) == KeepUnlessInfo(es, category, info)
  {
    KeepUnlessInfoIdempotent(es, category, info);
  }

  lemma {:induction false} KeepUnlessInfoIdempotent(es: seq<Entry>, category: string, info: string)
    ensures KeepUnlessInfo(KeepUnlessInfo(es, category, info), category, info) == KeepUnlessInfo(es, category, info)
  {
    var r := KeepUnlessInfo(es, category, info);
    assert forall i :: 0 <= i < |r| ==> !MatchesInfo(r[i], category, info) by {
      forall i | 0 <= i < |r| ensures !MatchesInfo(r[i], category, info) {
        assert r[i] in r;
      }
    }
    KeepUnlessInfoNoMatch(r, category, info);
  }

  /** A list with nothing to remove is kept whole. */
  lemma {:induction false} KeepUnlessInfoNoMatch(es: seq<Entry>, category: string, info: string)
    requires forall i :: 0 <= i < |es| ==> !MatchesInfo(es[i], category, info)
    ensures KeepUnlessInfo(es, category, info) == es
  {
    if es != [] {
      KeepUnlessInfoNoMatch(es[..|es| - 1], category, info);
      assert es == es[..|es| - 1] + [es[|es| - 1]];
    }
  }
}
