/** The administrators' announcement list (`/api/announcements`): a JSON file
    holding a list of records, which the handlers load, change in memory and
    write back. Creating prepends, updating patches the first record with the
    id, deleting splices it out, toggling flips its `enabled` flag, and
    `/current` shows the enabled records. */
module Announcements {
  import opened Json
  import opened Http

  /** One stored announcement. `id` is compared with `===`, so it is kept as a
      value; `kind` is the record's `type`; `updatedBy` is `undefined` until
      the first update or toggle. */
  datatype Announcement = Announcement(
    id: Value,
    title: Value,
    content: Value,
    kind: Value,
    enabled: Value,
    createdAt: int,
    updatedAt: int,
    createdBy: Value,
    updatedBy: Value)

  /** The announcements file as the handlers find it. */
  datatype StoredFile = Missing | Unreadable | Holding(records: seq<Announcement>)

  /** The record as `response.json` sends it (an `undefined` field is left out). */
  function ToJson(a: Announcement): (json: Value) {
    var fields := map[
      "id" := a.id, "title" := a.title, "content" := a.content, "type" := a.kind,
      "enabled" := a.enabled, "createdAt" := Num(a.createdAt as real),
      "updatedAt" := Num(a.updatedAt as real), "createdBy" := a.createdBy,
      "updatedBy" := a.updatedBy];
    Obj(map k | k in fields && fields[k] != Undefined :: fields[k])
  }

  /** `loadAnnouncements`: the stored list, or the empty list when the file is
      missing or does not parse. */
  function LoadFrom(file: StoredFile): (list: seq<Announcement>)
    ensures !file.Holding? ==> list == []
    ensures file.Holding? ==> list == file.records
  {
    if file.Holding? then file.records else []
  }

  /** `findIndex(a => a.id === id)`: the position of the first record with the
      id, or -1 when there is none. */
  function FindIndex(list: seq<Announcement>, id: string): (i: int)
    ensures -1 <= i < |list|
    ensures i == -1 <==> forall j :: 0 <= j < |list| ==> list[j].id != Str(id)
    ensures i >= 0 ==> list[i].id == Str(id) && forall j :: 0 <= j < i ==> list[j].id != Str(id)
  {
    if list == [] then -1
    else if list[0].id == Str(id) then 0
    else
      var rest := FindIndex(list[1..], id);
      if rest == -1 then -1 else rest + 1
  }

  /** `announcements.filter(a => a.enabled)` */
  function EnabledOnly(list: seq<Announcement>): (shown: seq<Announcement>)
    ensures |shown| <= |list|
    ensures forall a :: a in shown <==> a in list && Truthy(a.enabled)
    ensures forall a :: multiset(shown)[a] == if Truthy(a.enabled) then multiset(list)[a] else 0
  {
    if list == [] then []
    else
      assert list == [list[0]] + list[1..];
      if Truthy(list[0].enabled) then [list[0]] + EnabledOnly(list[1..])
      else EnabledOnly(list[1..])
  }

  /** `s` is `t` with some elements left out, the rest in their order. */
  predicate IsSubsequence(s: seq<Announcement>, t: seq<Announcement>)
    decreases |t|
  {
    s == [] ||
    (t != [] && ((s[0] == t[0] && IsSubsequence(s[1..], t[1..])) || IsSubsequence(s, t[1..])))
  }

  /** `/current` shows the enabled records in the order they are stored. */
  lemma {:induction false} EnabledOnlyKeepsOrder(list: seq<Announcement>)
    ensures IsSubsequence(EnabledOnly(list), list)
    decreases |list|
  {
    if list != [] {
      EnabledOnlyKeepsOrder(list[1..]);
      if Truthy(list[0].enabled) {
        assert EnabledOnly(list)[1..] == EnabledOnly(list[1..]);
      }
    }
  }

  /** The record a create makes: trimmed title and content, type `info` unless
      a truthy one is given, enabled unless `false` is given, both timestamps
      the same. */
  function NewRecord(id: string, title: string, content: string, kind: Value, enabled: Value, now: int, handle: Value): (r: Announcement) {
    Announcement(Str(id), Str(Trim(title)), Str(Trim(content)), OrElse(kind, Str("info")),
                 Bool(enabled != Bool(false)), now, now, handle, Undefined)
  }

  /** The fields an update may carry; each is `undefined` when not given. */
  datatype Patch = Patch(title: Value, content: Value, kind: Value, enabled: Value)

  /** An update trims a given title or content, and throws on a given one that
      is not a string. */
  predicate PatchTrimmable(p: Patch) {
    (p.title == Undefined || p.title.Str?) && (p.content == Undefined || p.content.Str?)
  }

  /** The record after an update: every given field replaced (title and
      content trimmed), the others kept, and the update stamped. */
  function Patched(a: Announcement, p: Patch, now: int, handle: Value): (r: Announcement)
    requires PatchTrimmable(p)
  {
    a.(title := if p.title == Undefined then a.title else Str(Trim(p.title.s)),
       content := if p.content == Undefined then a.content else Str(Trim(p.content.s)),
       kind := if p.kind == Undefined then a.kind else p.kind,
       enabled := if p.enabled == Undefined then a.enabled else p.enabled,
       updatedAt := now,
       updatedBy := handle)
  }

  /** The record after a toggle: `enabled` negated as a truth value, and the
      toggle stamped. */
  function Toggled(a: Announcement, now: int, handle: Value): (r: Announcement) {
    a.(enabled := Bool(!Truthy(a.enabled)), updatedAt := now, updatedBy := handle)
  }

  /** The list without its `i`-th record. */
  function Without(list: seq<Announcement>, i: nat): (r: seq<Announcement>)
    requires i < |list|
  {
    list[..i] + list[i + 1..]
  }

  const Success: Value := Obj(map["success" := Bool(true)])

  class AnnouncementStore {
    /** The announcements file. */
    var file: StoredFile

    constructor (initial: StoredFile)
      ensures file == initial
    {
      file := initial;
    }

    /** The list the handlers work on; `GET /` sends it as it is, and
        `GET /current` sends `EnabledOnly` of it. */
    function Load(): (r: seq<Announcement>)
      reads this
    {
      LoadFrom(file)
    }

    /** `POST /`: a new record in front of the others. `id` and `now` are the
        fresh id and the clock; `saved` is whether writing the file
        succeeds. */
    method Create(title: Value, content: Value, kind: Value, enabled: Value,
                  id: string, now: int, handle: Value, saved: bool) returns (res: Response)
      modifies this
      ensures !Truthy(title) || !Truthy(content) ==>
                res == ErrorBody(400, "Title and content are required") && file == old(file)
      ensures Truthy(title) && Truthy(content) && !(title.Str? && content.Str?) ==>
                res == ErrorBody(500, "Failed to create announcement") && file == old(file)
      ensures Truthy(title) && Truthy(content) && title.Str? && content.Str? ==>
                var a := NewRecord(id, title.s, content.s, kind, enabled, now, handle);
                if saved then res == Body(200, ToJson(a)) && file == Holding([a] + old(Load()))
                else res == ErrorBody(500, "Failed to save announcement") && file == old(file)
      ensures !old(file).Holding? && Truthy(title) && Truthy(content) && title.Str? && content.Str? && saved ==>
                file == Holding([NewRecord(id, title.s, content.s, kind, enabled, now, handle)])
    {
      if !Truthy(title) || !Truthy(content) {
        return ErrorBody(400, "Title and content are required");
      }
      var list := Load();
      if !title.Str? || !content.Str? {
        return ErrorBody(500, "Failed to create announcement");   // `trim` is not a function
      }
      var a := NewRecord(id, title.s, content.s, kind, enabled, now, handle);
      list := [a] + list;
      if saved {
        file := Holding(list);
        res := Body(200, ToJson(a));
      } else {
        res := ErrorBody(500, "Failed to save announcement");
      }
    }

    /** `PUT /:id`: the given fields of the first record with the id. */
    method Update(id: string, p: Patch, now: int, handle: Value, saved: bool) returns (res: Response)
      modifies this
      ensures var i := FindIndex(old(Load()), id);
        && (i == -1 ==> res == ErrorBody(404, "Announcement not found") && file == old(file))
        && (i >= 0 && !PatchTrimmable(p) ==> res == ErrorBody(500, "Failed to update announcement") && file == old(file))
        && (i >= 0 && PatchTrimmable(p) ==>
              var a := Patched(old(Load())[i], p, now, handle);
              if saved then res == Body(200, ToJson(a)) && file == Holding(old(Load())[i := a])
              else res == ErrorBody(500, "Failed to update announcement") && file == old(file))
    {
      var list := Load();
      var i := FindIndex(list, id);
      if i == -1 {
        return ErrorBody(404, "Announcement not found");
      }
      var a := list[i];
      if p.title != Undefined {
        if !p.title.Str? {
          return ErrorBody(500, "Failed to update announcement");
        }
        a := a.(title := Str(Trim(p.title.s)));
      }
      if p.content != Undefined {
        if !p.content.Str? {
          return ErrorBody(500, "Failed to update announcement");
        }
        a := a.(content := Str(Trim(p.content.s)));
      }
      if p.kind != Undefined {
        a := a.(kind := p.kind);
      }
      if p.enabled != Undefined {
        a := a.(enabled := p.enabled);
      }
      a := a.(updatedAt := now, updatedBy := handle);
      list := list[i := a];
      if saved {
        file := Holding(list);
        res := Body(200, ToJson(a));
      } else {
        res := ErrorBody(500, "Failed to update announcement");
      }
    }

    /** `DELETE /:id`: the first record with the id is spliced out. */
    method Delete(id: string, saved: bool) returns (res: Response)
      modifies this
      ensures var i := FindIndex(old(Load()), id);
        && (i == -1 ==> res == ErrorBody(404, "Announcement not found") && file == old(file))
        && (i >= 0 && saved ==> res == Body(200, Success) && file == Holding(Without(old(Load()), i)))
        && (i >= 0 && !saved ==> res == ErrorBody(500, "Failed to delete announcement") && file == old(file))
    {
      var list := Load();
      var i := FindIndex(list, id);
      if i == -1 {
        return ErrorBody(404, "Announcement not found");
      }
      list := list[..i] + list[i + 1..];
      if saved {
        file := Holding(list);
        res := Body(200, Success);
      } else {
        res := ErrorBody(500, "Failed to delete announcement");
      }
    }

    /** `POST /:id/toggle`: the first record with the id is flipped. */
    method Toggle(id: string, now: int, handle: Value, saved: bool) returns (res: Response)
      modifies this
      ensures var i := FindIndex(old(Load()), id);
        && (i == -1 ==> res == ErrorBody(404, "Announcement not found") && file == old(file))
        && (i >= 0 ==>
              var a := Toggled(old(Load())[i], now, handle);
              if saved then res == Body(200, ToJson(a)) && file == Holding(old(Load())[i := a])
              else res == ErrorBody(500, "Failed to toggle announcement") && file == old(file))
    {
      var list := Load();
      var i := FindIndex(list, id);
      if i == -1 {
        return ErrorBody(404, "Announcement not found");
      }
      var a := list[i];
      a := a.(enabled := Bool(!Truthy(a.enabled)));
      a := a.(updatedAt := now, updatedBy := handle);
      list := list[i := a];
      if saved {
        file := Holding(list);
        res := Body(200, ToJson(a));
      } else {
        res := ErrorBody(500, "Failed to toggle announcement");
      }
    }
  }

  // ---------------------------------------------------------------------------
  // What the operations promise.

  /** The title and content checks look at the untrimmed values: a title of
      white space only passes and is stored empty. */
  lemma BlankTitleStoredEmpty(id: string, title: string, content: string, kind: Value, enabled: Value, now: int, handle: Value)
    requires title != "" && forall k :: 0 <= k < |title| ==> IsWhitespace(title[k])
    ensures Truthy(Str(title))
    ensures NewRecord(id, title, content, kind, enabled, now, handle).title == Str("")
  {
    TrimEmptyIffBlank(title);
  }

  /** A new record: enabled exactly when `enabled` is not `false`, type `info`
      exactly when the given one is falsy, created and updated at the same
      time, and not marked as updated by anyone. */
  lemma NewRecordDefaults(id: string, title: string, content: string, kind: Value, enabled: Value, now: int, handle: Value)
    ensures var a := NewRecord(id, title, content, kind, enabled, now, handle);
      && (Truthy(a.enabled) <==> enabled != Bool(false))
      && (!Truthy(kind) ==> a.kind == Str("info"))
      && (Truthy(kind) ==> a.kind == kind)
      && a.createdAt == a.updatedAt == now
      && a.updatedBy == Undefined
  {
  }

  /** An update changes nothing but the given fields and the update stamp: the
      id, the creation stamp and the creator are kept, and a field not given
      keeps its value. */
  lemma PatchedKeepsTheRest(a: Announcement, p: Patch, now: int, handle: Value)
    requires PatchTrimmable(p)
    ensures var b := Patched(a, p, now, handle);
      && b.id == a.id && b.createdAt == a.createdAt && b.createdBy == a.createdBy
      && b.updatedAt == now && b.updatedBy == handle
      && (p.title == Undefined ==> b.title == a.title)
      && (p.content == Undefined ==> b.content == a.content)
      && (p.kind == Undefined ==> b.kind == a.kind)
      && (p.enabled == Undefined ==> b.enabled == a.enabled)
      && (p.kind != Undefined ==> b.kind == p.kind)
      && (p.enabled != Undefined ==> b.enabled == p.enabled)
  {
  }

  /** Deleting removes exactly the first record with the id: one record
      fewer, the others kept in order, and nothing else lost. */
  lemma {:induction false} DeleteRemovesFirstMatch(list: seq<Announcement>, id: string)
    requires FindIndex(list, id) >= 0
    ensures var i := FindIndex(list, id);
      && |Without(list, i)| == |list| - 1
      && multiset(Without(list, i)) + multiset{list[i]} == multiset(list)
      && list[i].id == Str(id)
      && IsSubsequence(Without(list, i), list)
  {
    var i := FindIndex(list, id);
    assert list == list[..i] + [list[i]] + list[i + 1..];
    WithoutIsSubsequence(list, i);
  }

  lemma {:induction false} WithoutIsSubsequence(list: seq<Announcement>, i: nat)
    requires i < |list|
    ensures IsSubsequence(Without(list, i), list)
    decreases i
  {
    if i == 0 {
      assert Without(list, 0) == list[1..];
      SubsequenceReflexive(list[1..]);
    } else {
      WithoutIsSubsequence(list[1..], i - 1);
      assert Without(list, i) == [list[0]] + Without(list[1..], i - 1);
      assert Without(list, i)[1..] == Without(list[1..], i - 1);
    }
  }

  lemma {:induction false} SubsequenceReflexive(s: seq<Announcement>)
    ensures IsSubsequence(s, s)
    decreases |s|
  {
    if s != [] {
      SubsequenceReflexive(s[1..]);
    }
  }

  /** A toggle keeps every id, so a second toggle of the same id finds the same
      record; toggling twice restores whether it is enabled, and restores
      `enabled` itself when it was a boolean. */
  lemma ToggleTwice(list: seq<Announcement>, id: string, now1: int, now2: int, handle1: Value, handle2: Value)
    requires FindIndex(list, id) >= 0
    ensures var i := FindIndex(list, id);
      var once := list[i := Toggled(list[i], now1, handle1)];
      && FindIndex(once, id) == i
      && var twice := Toggled(once[i], now2, handle2);
      && (Truthy(twice.enabled) <==> Truthy(list[i].enabled))
      && (list[i].enabled.Bool? ==> twice.enabled == list[i].enabled)
  {
    var i := FindIndex(list, id);
    var once := list[i := Toggled(list[i], now1, handle1)];
    SameIdsSameIndex(list, once, id);
  }

  /** Two lists with the same ids at the same positions find the same index. */
  lemma {:induction false} SameIdsSameIndex(s: seq<Announcement>, t: seq<Announcement>, id: string)
    requires |s| == |t| && forall j :: 0 <= j < |s| ==> s[j].id == t[j].id
    ensures FindIndex(s, id) == FindIndex(t, id)
    decreases |s|
  {
    if s != [] && s[0].id != Str(id) {
      SameIdsSameIndex(s[1..], t[1..], id);
    }
  }
}
