// The profiles table and its client-side queries (profile_manager.py): filtering by tags,
// searching by name or username, importing from CSV, and the update guard. The remote
// `profiles` table is the field `profiles` of a `ProfileManager` object; rows read from the
// `v_profiles_with_stats` view and the rows a search query returns are parameters.

module ProfileManager {
  import opened Common

  datatype Profile = Profile(profileId: nat, username: string, name: string, notes: string,
                             platform: string, isActive: bool, createdAt: int, updatedAt: int,
                             lastSyncedAt: Option<int>)

  /** A row of the `v_profiles_with_stats` view: the profile, its post count and its `tags`
      column (a JSON array of tag objects, or null). */
  datatype ProfileView = ProfileView(profile: Profile, postCount: nat, tags: Json)

  // ---------------------------------------------------------------------
  // get_profiles_by_tags
  // ---------------------------------------------------------------------

  /** A tag entry the filter reads: a dict with a `name` key. */
  predicate NamedTag(t: Json)
  {
    t.JObject? && "name" in t.fields
  }

  /** A named entry whose `name` is not a string: `tag['name'].lower()` raises. */
  predicate BadName(t: Json)
  {
    NamedTag(t) && !t.fields["name"].JStr?
  }

  /** The lowercased names of the named entries of `items`; an entry whose name is not a
      string raises. */
  function NamesOf(items: seq<Json>): (r: Result<set<string>>)
    ensures r.Err? <==> exists t :: t in items && BadName(t)
    ensures r.Ok? ==> forall n :: n in r.value <==>
      exists t :: t in items && NamedTag(t) && t.fields["name"].JStr? && Lower(t.fields["name"].s) == n
  {
    if items == [] then Ok({})
    else
      var rest := NamesOf(items[1..]);
      assert forall t :: t in items[1..] ==> t in items;
      assert forall t :: t in items ==> t == items[0] || t in items[1..];
      if BadName(items[0]) then Err("AttributeError: object has no attribute 'lower'")
      else if rest.Err? then rest
      else if NamedTag(items[0]) then Ok({Lower(items[0].fields["name"].s)} + rest.value)
      else rest
  }

  /** The profile's tag names, read only when `tags` is truthy. Iterating a string yields its
      characters and a dict its keys, neither of them dicts, so they give no names; a truthy
      number or `True` is not iterable and raises. */
  function TagNames(tags: Json): (r: Result<set<string>>)
    ensures r.Err? <==>
      Truthy(tags) && (tags.JInt? || tags.JBool? || (tags.JArray? && exists t :: t in tags.items && BadName(t)))
    ensures r.Ok? ==> forall n :: n in r.value <==>
      (tags.JArray? && exists t :: t in tags.items && NamedTag(t) && t.fields["name"].JStr? && Lower(t.fields["name"].s) == n)
  {
    if !Truthy(tags) then Ok({})
    else
      match tags
      case JArray(items) => NamesOf(items)
      case JInt(_) => Err("TypeError: object is not iterable")
      case JBool(_) => Err("TypeError: object is not iterable")
      case _ => Ok({})
  }

  /** `set(tag.lower() for tag in tag_names)`. */
  function SearchTags(tagNames: seq<string>): set<string>
  {
    set t | t in tagNames :: Lower(t)
  }

  /** Whether a profile with tag names `names` passes: all search tags (AND) or any (OR). */
  predicate Matches(names: set<string>, search: set<string>, matchAll: bool)
  {
    if matchAll then search <= names else search * names != {}
  }

  /** The profiles of `views` that match, in their order; the first profile whose tags raise
      ends the filter. */
  function Keep(views: seq<ProfileView>, search: set<string>, matchAll: bool): Result<seq<ProfileView>>
  {
    if views == [] then Ok([])
    else
      var last := views[|views| - 1];
      match Keep(views[..|views| - 1], search, matchAll)
      case Err(e) => Err(e)
      case Ok(kept) =>
        match TagNames(last.tags)
        case Err(e) => Err(e)
        case Ok(names) => Ok(kept + (if Matches(names, search, matchAll) then [last] else []))
  }

  /** `get_profiles_by_tags` over the rows `all` of the view: no tags means every profile. */
  function ByTags(all: seq<ProfileView>, tagNames: seq<string>, matchAll: bool): Result<seq<ProfileView>>
  {
    if tagNames == [] then Ok(all) else Keep(all, SearchTags(tagNames), matchAll)
  }

  /** `get_profiles_by_tags`: the view query of `get_all_profiles` (answered when `viewOk` holds,
      and then returning `all`), then the client-side filtering loop. */
  method GetProfilesByTags(viewOk: bool, all: seq<ProfileView>, tagNames: seq<string>, matchAll: bool)
    returns (r: Result<seq<ProfileView>>)
    ensures !viewOk ==> r == Err(RequestError)
    ensures viewOk ==> r == ByTags(all, tagNames, matchAll)
  {
    if !viewOk {
      return Err(RequestError);
    }
    if tagNames == [] {
      return Ok(all);
    }
    var search := SearchTags(tagNames);
    var matching := [];
    var i := 0;
    while i < |all|
      invariant 0 <= i <= |all|
      invariant Keep(all[..i], search, matchAll) == Ok(matching)
    {
      assert all[..i + 1][..i] == all[..i] && all[..i + 1][i] == all[i];
      var names := TagNames(all[i].tags);
      if names.Err? {
        KeepErrStops(all, i + 1, search, matchAll);
        return Err(names.error);
      }
      var step := if Matches(names.value, search, matchAll) then [all[i]] else [];
      assert Keep(all[..i + 1], search, matchAll) == Ok(matching + step);
      matching := matching + step;
      i := i + 1;
    }
    assert all[..i] == all;
    r := Ok(matching);
  }

  /** Once a prefix of the rows raises, the filter has raised with that error. */
  lemma {:induction false} KeepErrStops(views: seq<ProfileView>, n: nat, search: set<string>, matchAll: bool)
    requires n <= |views| && Keep(views[..n], search, matchAll).Err?
    ensures Keep(views, search, matchAll) == Keep(views[..n], search, matchAll)
    decreases |views|
  {
    if n < |views| {
      var init := views[..|views| - 1];
      assert init[..n] == views[..n];
      KeepErrStops(init, n, search, matchAll);
    } else {
      assert views[..n] == views;
    }
  }

  /** The filter raises exactly when some profile's tags raise. Otherwise a profile is kept iff
      it is in the view and, when tags were given, it has every requested tag (`match_all`) or
      at least one of them, comparing lowercased names; tag entries that are not dicts with a
      name never count. */
  lemma ByTagsKept(all: seq<ProfileView>, tagNames: seq<string>, matchAll: bool, v: ProfileView)
    ensures ByTags(all, tagNames, matchAll).Ok? <==>
      tagNames == [] || forall w :: w in all ==> TagNames(w.tags).Ok?
    ensures ByTags(all, tagNames, matchAll).Ok? ==>
      (v in ByTags(all, tagNames, matchAll).value <==>
       (v in all
        && (tagNames == []
            || (matchAll && forall t :: t in tagNames ==> Lower(t) in TagNames(v.tags).value)
            || (!matchAll && exists t :: t in tagNames && Lower(t) in TagNames(v.tags).value))))
  {
    if tagNames != [] {
      var search := SearchTags(tagNames);
      KeepMembers(all, search, matchAll, v);
      if Keep(all, search, matchAll).Ok? && v in all {
        var names := TagNames(v.tags).value;
        assert forall t :: t in tagNames ==> Lower(t) in search;
        if !matchAll && search * names != {} {
          var n :| n in search * names;
          var t :| t in tagNames && Lower(t) == n;
        }
        if !matchAll && exists t :: t in tagNames && Lower(t) in names {
          var t :| t in tagNames && Lower(t) in names;
          assert Lower(t) in search * names;
        }
      }
    }
  }

  lemma {:induction false} KeepMembers(views: seq<ProfileView>, search: set<string>, matchAll: bool, v: ProfileView)
    ensures Keep(views, search, matchAll).Ok? <==> forall w :: w in views ==> TagNames(w.tags).Ok?
    ensures Keep(views, search, matchAll).Ok? ==>
      (v in Keep(views, search, matchAll).value <==>
       v in views && TagNames(v.tags).Ok? && Matches(TagNames(v.tags).value, search, matchAll))
    decreases |views|
  {
    if views != [] {
      var init := views[..|views| - 1];
      KeepMembers(init, search, matchAll, v);
      assert views == init + [views[|views| - 1]];
      assert forall w :: w in views <==> w in init || w == views[|views| - 1];
    }
  }

  /** The filtered rows are the view's rows in their original order: each comes from a strictly
      later position than the one before it. */
  lemma ByTagsInOrder(all: seq<ProfileView>, tagNames: seq<string>, matchAll: bool)
    ensures var r := ByTags(all, tagNames, matchAll);
      r.Ok? ==> exists idx: seq<nat> :: InOrder(idx, r.value, all)
  {
    var r := ByTags(all, tagNames, matchAll);
    if tagNames == [] {
      var idx := seq(|all|, i requires 0 <= i < |all| => i as nat);
      assert InOrder(idx, r.value, all);
    } else if r.Ok? {
      var idx := KeepPositions(all, SearchTags(tagNames), matchAll);
    }
  }

  /** `idx` picks `r` out of `s` at strictly increasing positions. */
  ghost predicate InOrder<T>(idx: seq<nat>, r: seq<T>, s: seq<T>)
  {
    && |idx| == |r|
    && (forall k :: 0 <= k < |idx| ==> idx[k] < |s| && s[idx[k]] == r[k])
    && (forall k, l :: 0 <= k < l < |idx| ==> idx[k] < idx[l])
  }

  /** The positions `Keep` takes its rows from. */
  lemma {:induction false} KeepPositions(views: seq<ProfileView>, search: set<string>, matchAll: bool)
    returns (idx: seq<nat>)
    requires Keep(views, search, matchAll).Ok?
    ensures InOrder(idx, Keep(views, search, matchAll).value, views)
    decreases |views|
  {
    if views == [] {
      idx := [];
    } else {
      var n := |views| - 1;
      var init := KeepPositions(views[..n], search, matchAll);
      var kept := Keep(views[..n], search, matchAll).value;
      var names := TagNames(views[n].tags).value;
      var more: seq<nat> := if Matches(names, search, matchAll) then [n] else [];
      idx := init + more;
      forall k | 0 <= k < |init| ensures init[k] < n && views[init[k]] == kept[k] {
        assert views[..n][init[k]] == views[init[k]];
      }
    }
  }

  // ---------------------------------------------------------------------
  // search_profiles
  // ---------------------------------------------------------------------

  /** A dict from profile id to profile, with the ids in insertion order. */
  datatype ById = ById(order: seq<nat>, rows: map<nat, Profile>)

  /** The last row of `rows` carrying `id`, if any. */
  function LastWith(rows: seq<Profile>, id: nat): (r: Option<Profile>)
    ensures r.Some? ==> r.value in rows && r.value.profileId == id
    ensures r.None? ==> forall p :: p in rows ==> p.profileId != id
  {
    if rows == [] then None
    else if rows[|rows| - 1].profileId == id then Some(rows[|rows| - 1])
    else
      assert forall p :: p in rows ==> p in rows[..|rows| - 1] || p == rows[|rows| - 1];
      LastWith(rows[..|rows| - 1], id)
  }

  /** No row after the one `LastWith` picks carries its id. */
  lemma {:induction false} LastWithIsLast(rows: seq<Profile>, id: nat)
    requires LastWith(rows, id).Some?
    ensures exists k :: (0 <= k < |rows| && rows[k] == LastWith(rows, id).value
      && forall k' :: k < k' < |rows| ==> rows[k'].profileId != id)
    decreases |rows|
  {
    var n := |rows| - 1;
    var init := rows[..n];
    if rows[n].profileId != id {
      assert LastWith(rows, id) == LastWith(init, id);
      LastWithIsLast(init, id);
      var k :| 0 <= k < n && init[k] == LastWith(init, id).value
        && forall k' :: k < k' < n ==> init[k'].profileId != id;
      assert rows[k] == init[k];
      forall k' | k < k' < |rows| ensures rows[k'].profileId != id {
        if k' < n {
          assert rows[k'] == init[k'];
        }
      }
    } else {
      assert rows[n] == LastWith(rows, id).value;
    }
  }

  /** `profiles_dict[profile['profile_id']] = profile` over `rows`: each id is inserted once, at
      its first occurrence, and maps to a row carrying it. */
  function Collect(rows: seq<Profile>): (d: ById)
    ensures forall id :: id in d.rows <==> id in d.order
    ensures forall i, j :: 0 <= i < j < |d.order| ==> d.order[i] != d.order[j]
    ensures forall id :: id in d.rows ==> d.rows[id].profileId == id
  {
    if rows == [] then ById([], map[])
    else
      var n := |rows| - 1;
      var d := Collect(rows[..n]);
      var p := rows[n];
      ById(if p.profileId in d.rows then d.order else d.order + [p.profileId], d.rows[p.profileId := p])
  }

  /** The dict holds an id iff some row carries it, and then the last such row. */
  lemma {:induction false} CollectIsLast(rows: seq<Profile>)
    ensures forall id :: id in Collect(rows).rows <==> LastWith(rows, id).Some?
    ensures forall id :: id in Collect(rows).rows ==> LastWith(rows, id) == Some(Collect(rows).rows[id])
    decreases |rows|
  {
    if rows != [] {
      var n := |rows| - 1;
      CollectIsLast(rows[..n]);
      var p := rows[n];
      assert Collect(rows).rows == Collect(rows[..n]).rows[p.profileId := p];
    }
  }

  /** `profiles_dict.values()`: the rows in the order of their ids. */
  function Values(order: seq<nat>, rows: map<nat, Profile>): (r: seq<Profile>)
    requires forall id :: id in order ==> id in rows
    ensures |r| == |order| && forall i :: 0 <= i < |order| ==> r[i] == rows[order[i]]
  {
    if order == [] then [] else [rows[order[0]]] + Values(order[1..], rows)
  }

  /** Python's `<` on names: code-point lexicographic order. */
  predicate NameLe(a: Profile, b: Profile)
  {
    LexLe(a.name, b.name)
  }

  /** `search_profiles` on the rows the name query and the username query returned. */
  function Search(nameResults: seq<Profile>, usernameResults: seq<Profile>): seq<Profile>
  {
    var d := Collect(nameResults + usernameResults);
    SortBy(Values(d.order, d.rows), NameLe)
  }

  /** `search_profiles`: the name query, then the username query (each answered when its flag
      holds, and then returning its rows), the dict-building loop, and the sort by name. A query
      that is not answered raises. */
  method SearchProfiles(nameOk: bool, nameResults: seq<Profile>, usernameOk: bool, usernameResults: seq<Profile>)
    returns (r: Result<seq<Profile>>)
    ensures !nameOk || !usernameOk ==> r == Err(RequestError)
    ensures nameOk && usernameOk ==> r == Ok(Search(nameResults, usernameResults))
  {
    if !nameOk || !usernameOk {
      return Err(RequestError);
    }
    var d := CollectRows(nameResults + usernameResults);
    r := Ok(SortBy(Values(d.order, d.rows), NameLe));
  }

  /** The loop filling `profiles_dict`: each row replaces the entry of its id, and a new id
      goes to the end of the order. */
  method CollectRows(rows: seq<Profile>) returns (d: ById)
    ensures d == Collect(rows)
  {
    var order: seq<nat> := [];
    var byId: map<nat, Profile> := map[];
    var i := 0;
    while i < |rows|
      invariant 0 <= i <= |rows|
      invariant ById(order, byId) == Collect(rows[..i])
    {
      CollectStep(rows, i);
      var p := rows[i];
      if p.profileId !in byId {
        order := order + [p.profileId];
      }
      byId := byId[p.profileId := p];
      i := i + 1;
    }
    assert rows[..i] == rows;
    d := ById(order, byId);
  }

  lemma CollectStep(rows: seq<Profile>, i: nat)
    requires i < |rows|
    ensures var d := Collect(rows[..i]);
      var p := rows[i];
      Collect(rows[..i + 1]) == ById(if p.profileId in d.rows then d.order else d.order + [p.profileId], d.rows[p.profileId := p])
  {
    assert rows[..i + 1][..i] == rows[..i];
  }

  ghost predicate DistinctIds(s: seq<Profile>)
  {
    forall i, j :: 0 <= i < j < |s| ==> s[i].profileId != s[j].profileId
  }

  /** The search result holds each profile id of the returned rows exactly once, as the last
      row returned for it, and is ordered by name. */
  lemma SearchFacts(nameResults: seq<Profile>, usernameResults: seq<Profile>)
    ensures var r := Search(nameResults, usernameResults);
      && (forall i, j :: 0 <= i < j < |r| ==> LexLe(r[i].name, r[j].name))
      && DistinctIds(r)
      && (forall p :: p in r ==> LastWith(nameResults + usernameResults, p.profileId) == Some(p))
      && (forall q :: q in nameResults + usernameResults ==> exists p :: p in r && p.profileId == q.profileId)
  {
    var rows := nameResults + usernameResults;
    var d := Collect(rows);
    var vs := Values(d.order, d.rows);
    NameLeTotal();
    SortByFacts(vs, NameLe);
    ValuesFacts(rows);
    SortKeepsDistinct(vs);
  }

  /** The dict's values: distinct ids, the last row of each id, and every id of `rows`. */
  lemma ValuesFacts(rows: seq<Profile>)
    ensures var d := Collect(rows);
      var vs := Values(d.order, d.rows);
      && DistinctIds(vs)
      && (forall p :: p in vs ==> LastWith(rows, p.profileId) == Some(p))
      && (forall q :: q in rows ==> exists p :: p in vs && p.profileId == q.profileId)
  {
    ValuesDistinct(rows);
    ValuesAreLast(rows);
    ValuesCover(rows);
  }

  lemma ValuesDistinct(rows: seq<Profile>)
    ensures var d := Collect(rows);
      DistinctIds(Values(d.order, d.rows))
  {
  }

  lemma ValuesAreLast(rows: seq<Profile>)
    ensures var d := Collect(rows);
      forall p :: p in Values(d.order, d.rows) ==> LastWith(rows, p.profileId) == Some(p)
  {
    var d := Collect(rows);
    var vs := Values(d.order, d.rows);
    CollectIsLast(rows);
    forall p | p in vs ensures LastWith(rows, p.profileId) == Some(p) {
      var i :| 0 <= i < |vs| && vs[i] == p;
      assert d.order[i] in d.rows && vs[i] == d.rows[d.order[i]];
    }
  }

  lemma ValuesCover(rows: seq<Profile>)
    ensures var d := Collect(rows);
      forall q :: q in rows ==> exists p :: p in Values(d.order, d.rows) && p.profileId == q.profileId
  {
    var d := Collect(rows);
    var vs := Values(d.order, d.rows);
    CollectIsLast(rows);
    forall q | q in rows ensures exists p :: p in vs && p.profileId == q.profileId {
      assert LastWith(rows, q.profileId).Some?;
      var i :| 0 <= i < |d.order| && d.order[i] == q.profileId;
      assert vs[i] in vs;
    }
  }

  lemma NameLeTotal()
    ensures TotalPreorder(NameLe)
  {
    forall x: Profile, y: Profile ensures NameLe(x, y) || NameLe(y, x) {
      LexLeTotal(x.name, y.name);
    }
    forall x: Profile, y: Profile, z: Profile | NameLe(x, y) && NameLe(y, z) ensures NameLe(x, z) {
      LexLeTransitive(x.name, y.name, z.name);
    }
  }

  lemma {:induction false} InsertKeepsDistinct(x: Profile, s: seq<Profile>)
    requires DistinctIds(s) && forall q :: q in s ==> q.profileId != x.profileId
    ensures DistinctIds(InsertBy(x, s, NameLe))
    ensures forall q :: q in InsertBy(x, s, NameLe) <==> q == x || q in s
  {
    if s != [] && !NameLe(x, s[0]) {
      assert forall q :: q in s[1..] ==> q in s;
      assert DistinctIds(s[1..]);
      InsertKeepsDistinct(x, s[1..]);
      assert forall q :: q in s ==> q == s[0] || q in s[1..];
      var rest := InsertBy(x, s[1..], NameLe);
      assert forall q :: q in rest ==> q.profileId != s[0].profileId;
      assert InsertBy(x, s, NameLe) == [s[0]] + rest;
    }
  }

  lemma {:induction false} SortKeepsDistinct(s: seq<Profile>)
    requires DistinctIds(s)
    ensures DistinctIds(SortBy(s, NameLe))
    ensures forall q :: q in SortBy(s, NameLe) <==> q in s
  {
    if s != [] {
      assert DistinctIds(s[1..]);
      SortKeepsDistinct(s[1..]);
      assert forall q :: q in s ==> q == s[0] || q in s[1..];
      assert forall q :: q in s[1..] ==> q.profileId != s[0].profileId;
      InsertKeepsDistinct(s[0], SortBy(s[1..], NameLe));
    }
  }

  // ---------------------------------------------------------------------
  // The profiles table: add_profile, update_profile, get_profile_by_username
  // ---------------------------------------------------------------------

  /** The keyword arguments of `update_profile`; `None` is an argument not given. */
  datatype Changes = Changes(username: Option<string>, name: Option<string>, notes: Option<string>,
                             platform: Option<string>, isActive: Option<bool>, lastSyncedAt: Option<int>)

  const NoChanges := Changes(None, None, None, None, None, None)

  function Pick<T>(o: Option<T>, current: T): T
  {
    if o.Some? then o.value else current
  }

  /** A row with the given fields replaced and `updated_at` set to `now`. */
  function Apply(p: Profile, c: Changes, now: int): Profile
  {
    p.(username := Pick(c.username, p.username), name := Pick(c.name, p.name),
       notes := Pick(c.notes, p.notes), platform := Pick(c.platform, p.platform),
       isActive := Pick(c.isActive, p.isActive),
       lastSyncedAt := if c.lastSyncedAt.Some? then c.lastSyncedAt else p.lastSyncedAt,
       updatedAt := now)
  }

  function UpdateRows(ps: seq<Profile>, id: nat, c: Changes, now: int): (r: seq<Profile>)
    ensures |r| == |ps|
    ensures forall i :: 0 <= i < |ps| ==> r[i] == if ps[i].profileId == id then Apply(ps[i], c, now) else ps[i]
  {
    if ps == [] then []
    else [if ps[0].profileId == id then Apply(ps[0], c, now) else ps[0]] + UpdateRows(ps[1..], id, c, now)
  }

  predicate HasId(ps: seq<Profile>, id: nat)
  {
    exists i :: 0 <= i < |ps| && ps[i].profileId == id
  }

  /** Some row other than those with `id` holds `username`. */
  predicate Taken(ps: seq<Profile>, id: nat, username: string)
  {
    exists i :: 0 <= i < |ps| && ps[i].username == username && ps[i].profileId != id
  }

  const UniqueError: string := "duplicate" + " key value violates unique constraint on username"

  /** The table's keys hold: `profile_id` is the primary key and `username` is unique. */
  predicate Keys(ps: seq<Profile>)
  {
    forall i, j :: 0 <= i < j < |ps| ==> ps[i].profileId != ps[j].profileId && ps[i].username != ps[j].username
  }

  /** The UPDATE of `update_profile`: with no fields nothing is sent and it reports False. The
      unique constraint on `username` rejects giving the row with `id` a username another row
      holds. Otherwise the rows with `id` take the given fields and the new `updated_at`, and it
      reports whether there was such a row. */
  function Update(ps: seq<Profile>, id: nat, c: Changes, now: int): (r: Result<(seq<Profile>, bool)>)
    ensures c == NoChanges ==> r == Ok((ps, false))
    ensures r.Err? <==> c != NoChanges && c.username.Some? && HasId(ps, id) && Taken(ps, id, c.username.value)
    ensures r.Ok? && c != NoChanges ==> (r.value.1 <==> HasId(ps, id))
    ensures r.Ok? ==> |r.value.0| == |ps|
    ensures r.Ok? ==> forall i :: 0 <= i < |ps| && ps[i].profileId != id ==> r.value.0[i] == ps[i]
    ensures r.Ok? && c != NoChanges ==> forall i :: 0 <= i < |ps| && ps[i].profileId == id ==>
      && r.value.0[i].profileId == id && r.value.0[i].updatedAt == now && r.value.0[i].createdAt == ps[i].createdAt
      && (c.name.Some? ==> r.value.0[i].name == c.name.value) && (c.name.None? ==> r.value.0[i].name == ps[i].name)
      && (c.username.Some? ==> r.value.0[i].username == c.username.value)
      && (c.username.None? ==> r.value.0[i].username == ps[i].username)
      && (c.lastSyncedAt.Some? ==> r.value.0[i].lastSyncedAt == c.lastSyncedAt)
  {
    if c == NoChanges then Ok((ps, false))
    else if c.username.Some? && HasId(ps, id) && Taken(ps, id, c.username.value) then Err(UniqueError)
    else Ok((UpdateRows(ps, id, c, now), HasId(ps, id)))
  }

  /** An update the table accepts keeps its keys. */
  lemma UpdateKeepsKeys(ps: seq<Profile>, id: nat, c: Changes, now: int)
    requires Keys(ps) && Update(ps, id, c, now).Ok?
    ensures Keys(Update(ps, id, c, now).value.0)
  {
    var r := Update(ps, id, c, now).value.0;
    forall i, j | 0 <= i < j < |r| ensures r[i].profileId != r[j].profileId && r[i].username != r[j].username {
      if c != NoChanges && c.username.Some? && (ps[i].profileId == id || ps[j].profileId == id) {
        assert HasId(ps, id);
        assert !Taken(ps, id, c.username.value);
      }
    }
  }

  /** `get_profile_by_username`: the first row with that username. */
  function FindByUsername(ps: seq<Profile>, username: string): (r: Option<Profile>)
    ensures r.Some? ==> r.value in ps && r.value.username == username
    ensures r.None? ==> forall p :: p in ps ==> p.username != username
  {
    if ps == [] then None
    else if ps[0].username == username then Some(ps[0])
    else
      assert forall p :: p in ps ==> p == ps[0] || p in ps[1..];
      FindByUsername(ps[1..], username)
  }

  /** The new row `add_profile` inserts. */
  function NewProfile(id: nat, username: string, name: string, notes: string, platform: string, now: int): Profile
  {
    Profile(id, username, name, notes, platform, true, now, now, None)
  }

  /** Whether the k-th request sent to the database succeeds. */
  type Answers = nat -> bool

  const RequestError: string := "APIError: request failed"

  // ---------------------------------------------------------------------
  // sync_from_csv
  // ---------------------------------------------------------------------

  /** A row of `csv.DictReader`: a column missing from the row is a missing key. */
  type CsvRow = map<string, string>

  /** `row.get('username')` and `row.get('name')` are both present and non-empty. */
  predicate Complete(row: CsvRow)
  {
    "username" in row && row["username"] != [] && "name" in row && row["name"] != []
  }

  datatype Outcome = Added | Updated | Skipped

  datatype SyncStats = SyncStats(added: nat, updated: nat, skipped: nat)

  /** The table's rows, the next fresh id, and the number of requests sent so far. */
  datatype Table = Table(profiles: seq<Profile>, nextId: nat, calls: nat)

  /** The fields `sync_from_csv` passes to `update_profile` for an existing username. */
  function SyncChanges(name: string, now: int): Changes
  {
    Changes(None, Some(name), None, None, None, Some(now))
  }

  /** One row of `sync_from_csv`: an incomplete row is skipped without a request; otherwise the
      stripped username is looked up (one request), and the profile found gets the stripped
      name and `last_synced_at`, or a new linkedin profile is inserted (a second request). A
      failed request raises out of the import with no row changed by it. */
  function SyncRow(t: Table, row: CsvRow, now: int, ok: Answers): (r: (Table, Result<Outcome>))
    ensures r.1 == Ok(Skipped) <==> !Complete(row)
    ensures !Complete(row) ==> r.0 == t
    ensures Complete(row) ==> r.0.calls == t.calls + (if ok(t.calls) then 2 else 1)
    ensures r.1.Err? <==> Complete(row) && !(ok(t.calls) && ok(t.calls + 1))
    ensures r.1.Err? ==> r.0.profiles == t.profiles && r.0.nextId == t.nextId
    ensures r.1 == Ok(Updated) <==>
      Complete(row) && ok(t.calls) && ok(t.calls + 1) && FindByUsername(t.profiles, Strip(row["username"])).Some?
    ensures r.1 == Ok(Updated) ==> r.0.nextId == t.nextId && |r.0.profiles| == |t.profiles|
    ensures r.1 == Ok(Added) ==> r.0 == Table(t.profiles + [NewProfile(t.nextId, Strip(row["username"]),
      Strip(row["name"]), "", "linkedin", now)], t.nextId + 1, t.calls + 2)
  {
    if !Complete(row) then (t, Ok(Skipped))
    else if !ok(t.calls) then (t.(calls := t.calls + 1), Err(RequestError))
    else if !ok(t.calls + 1) then (t.(calls := t.calls + 2), Err(RequestError))
    else
      var username := Strip(row["username"]);
      var name := Strip(row["name"]);
      match FindByUsername(t.profiles, username)
      case Some(existing) =>
        (Table(Update(t.profiles, existing.profileId, SyncChanges(name, now), now).value.0, t.nextId, t.calls + 2),
         Ok(Updated))
      case None =>
        (Table(t.profiles + [NewProfile(t.nextId, username, name, "", "linkedin", now)], t.nextId + 1, t.calls + 2),
         Ok(Added))
  }

  function Count(s: SyncStats, o: Outcome): SyncStats
  {
    match o
    case Added => s.(added := s.added + 1)
    case Updated => s.(updated := s.updated + 1)
    case Skipped => s.(skipped := s.skipped + 1)
  }

  /** `sync_from_csv` over the rows of an existing file: the table as far as the import got,
      and the counts, or the error of the request that raised. */
  function SyncAll(t: Table, rows: seq<CsvRow>, now: int, ok: Answers): (Table, Result<SyncStats>)
  {
    if rows == [] then (t, Ok(SyncStats(0, 0, 0)))
    else
      var (t1, s1) := SyncAll(t, rows[..|rows| - 1], now, ok);
      if s1.Err? then (t1, s1)
      else
        var (t2, o) := SyncRow(t1, rows[|rows| - 1], now, ok);
        if o.Err? then (t2, Err(o.error)) else (t2, Ok(Count(s1.value, o.value)))
  }

  function Incomplete(rows: seq<CsvRow>): nat
  {
    if rows == [] then 0 else Incomplete(rows[..|rows| - 1]) + (if Complete(rows[|rows| - 1]) then 0 else 1)
  }

  /** An import that finishes counts every row read once, and the skipped ones are exactly the
      incomplete rows. */
  lemma {:induction false} SyncCounts(t: Table, rows: seq<CsvRow>, now: int, ok: Answers)
    ensures var s := SyncAll(t, rows, now, ok).1;
      s.Ok? ==> s.value.added + s.value.updated + s.value.skipped == |rows| && s.value.skipped == Incomplete(rows)
    decreases |rows|
  {
    if rows != [] {
      SyncCounts(t, rows[..|rows| - 1], now, ok);
    }
  }

  /** With every request answered the import finishes. */
  lemma {:induction false} SyncFinishes(t: Table, rows: seq<CsvRow>, now: int, ok: Answers)
    requires forall k :: ok(k)
    ensures SyncAll(t, rows, now, ok).1.Ok?
    decreases |rows|
  {
    if rows != [] {
      SyncFinishes(t, rows[..|rows| - 1], now, ok);
    }
  }

  /** A request that raises ends the import: later rows are never read, and the rows before it
      stay applied. */
  lemma {:induction false} SyncStops(t: Table, rows: seq<CsvRow>, more: seq<CsvRow>, now: int, ok: Answers)
    requires SyncAll(t, rows, now, ok).1.Err?
    ensures SyncAll(t, rows + more, now, ok) == SyncAll(t, rows, now, ok)
    decreases |more|
  {
    if more == [] {
      assert rows + more == rows;
    } else {
      var init := more[..|more| - 1];
      SyncStops(t, rows, init, now, ok);
      assert (rows + more)[..|rows + more| - 1] == rows + init;
    }
  }

  /** Every complete row's stripped username has a profile in `ps`. */
  ghost predicate Covered(ps: seq<Profile>, rows: seq<CsvRow>)
  {
    forall j :: 0 <= j < |rows| && Complete(rows[j]) ==> FindByUsername(ps, Strip(rows[j]["username"])).Some?
  }

  /** After an import that finishes every complete row's stripped username has a profile. */
  lemma {:induction false} SyncCovers(t: Table, rows: seq<CsvRow>, now: int, ok: Answers)
    ensures SyncAll(t, rows, now, ok).1.Ok? ==> forall j :: 0 <= j < |rows| && Complete(rows[j]) ==>
      FindByUsername(SyncAll(t, rows, now, ok).0.profiles, Strip(rows[j]["username"])).Some?
    decreases |rows|
  {
    if rows != [] && SyncAll(t, rows, now, ok).1.Ok? {
      var n := |rows| - 1;
      var t1 := SyncAll(t, rows[..n], now, ok).0;
      var t2 := SyncRow(t1, rows[n], now, ok).0;
      assert SyncAll(t, rows, now, ok).0 == t2;
      SyncCovers(t, rows[..n], now, ok);
      assert Covered(t1.profiles, rows[..n]);
      CoveredAfterRow(t1, rows[..n], rows[n], now, ok);
      if Complete(rows[n]) {
        SyncRowCovers(t1, rows[n], now, ok);
      }
      CoveredSnoc(t2.profiles, rows);
    }
  }

  lemma CoveredAfterRow(t: Table, rows: seq<CsvRow>, row: CsvRow, now: int, ok: Answers)
    requires Covered(t.profiles, rows)
    ensures Covered(SyncRow(t, row, now, ok).0.profiles, rows)
  {
    SyncRowKeeps(t, row, now, ok);
  }

  lemma CoveredSnoc(ps: seq<Profile>, rows: seq<CsvRow>)
    requires rows != [] && Covered(ps, rows[..|rows| - 1])
    requires Complete(rows[|rows| - 1]) ==> FindByUsername(ps, Strip(rows[|rows| - 1]["username"])).Some?
    ensures Covered(ps, rows)
  {
    forall j | 0 <= j < |rows| - 1 ensures rows[..|rows| - 1][j] == rows[j] {
    }
  }

  /** After a complete row that does not raise its stripped username has a profile. */
  lemma SyncRowCovers(t: Table, row: CsvRow, now: int, ok: Answers)
    requires Complete(row) && SyncRow(t, row, now, ok).1.Ok?
    ensures FindByUsername(SyncRow(t, row, now, ok).0.profiles, Strip(row["username"])).Some?
  {
    var u := Strip(row["username"]);
    var t2 := SyncRow(t, row, now, ok).0;
    if FindByUsername(t.profiles, u).None? {
      assert t2.profiles[|t.profiles|].username == u;
      assert t2.profiles[|t.profiles|] in t2.profiles;
    } else {
      var p := FindByUsername(t.profiles, u).value;
      var i :| 0 <= i < |t.profiles| && t.profiles[i] == p;
      assert t2.profiles[i].username == u;
      assert t2.profiles[i] in t2.profiles;
    }
  }

  /** A username that has a profile keeps one after any row, raising or not. */
  lemma SyncRowKeeps(t: Table, row: CsvRow, now: int, ok: Answers)
    ensures forall u :: FindByUsername(t.profiles, u).Some? ==> FindByUsername(SyncRow(t, row, now, ok).0.profiles, u).Some?
  {
    var r := SyncRow(t, row, now, ok).0;
    forall u | FindByUsername(t.profiles, u).Some? ensures FindByUsername(r.profiles, u).Some? {
      var p := FindByUsername(t.profiles, u).value;
      var i :| 0 <= i < |t.profiles| && t.profiles[i] == p;
      assert r.profiles[i].username == u;
      assert r.profiles[i] in r.profiles;
    }
  }

  /** The remote `profiles` table, the source of fresh profile ids, and the count of requests
      sent to it. */
  class ProfileStore {
    var profiles: seq<Profile>
    var nextId: nat
    var calls: nat

    /** Every id in use is below `nextId`, and the table's keys hold. */
    ghost predicate Valid()
      reads this
    {
      (forall p :: p in profiles ==> p.profileId < nextId) && Keys(profiles)
    }

    constructor()
      ensures Valid() && profiles == [] && nextId == 0 && calls == 0
    {
      profiles := [];
      nextId := 0;
      calls := 0;
    }

    /** `add_profile`: one INSERT of a row with a fresh id. A failed request, or the unique
        constraint on a username already in the table, raises and changes no row. */
    method AddProfile(username: string, name: string, notes: string, platform: string, now: int, ok: Answers)
      returns (r: Result<nat>)
      requires Valid()
      modifies this
      ensures Valid() && calls == old(calls) + 1
      ensures !ok(old(calls)) ==> r == Err(RequestError) && profiles == old(profiles) && nextId == old(nextId)
      ensures ok(old(calls)) && FindByUsername(old(profiles), username).Some? ==>
        r == Err(UniqueError) && profiles == old(profiles) && nextId == old(nextId)
      ensures ok(old(calls)) && FindByUsername(old(profiles), username).None? ==>
        && r == Ok(old(nextId)) && nextId == old(nextId) + 1
        && profiles == old(profiles) + [NewProfile(old(nextId), username, name, notes, platform, now)]
      ensures r.Ok? ==> !HasId(old(profiles), r.value)
    {
      calls := calls + 1;
      if !ok(calls - 1) {
        return Err(RequestError);
      }
      if FindByUsername(profiles, username).Some? {
        return Err(UniqueError);
      }
      var id := nextId;
      profiles := profiles + [NewProfile(id, username, name, notes, platform, now)];
      nextId := nextId + 1;
      r := Ok(id);
    }

    /** `get_profile_by_username`: one SELECT; a failed request raises. */
    method GetProfileByUsername(username: string, ok: Answers) returns (r: Result<Option<Profile>>)
      modifies this
      ensures profiles == old(profiles) && nextId == old(nextId) && calls == old(calls) + 1
      ensures r == if ok(old(calls)) then Ok(FindByUsername(profiles, username)) else Err(RequestError)
    {
      calls := calls + 1;
      if !ok(calls - 1) {
        return Err(RequestError);
      }
      r := Ok(FindByUsername(profiles, username));
    }

    /** `update_profile`: no fields sends nothing and reports False; otherwise one UPDATE,
        which raises when the request fails or as `Update` says, changing no row. */
    method UpdateProfile(id: nat, c: Changes, now: int, ok: Answers) returns (r: Result<bool>)
      requires Valid()
      modifies this
      ensures Valid() && nextId == old(nextId)
      ensures c == NoChanges ==> r == Ok(false) && profiles == old(profiles) && calls == old(calls)
      ensures c != NoChanges ==> calls == old(calls) + 1
      ensures c != NoChanges && !ok(old(calls)) ==> r == Err(RequestError) && profiles == old(profiles)
      ensures c != NoChanges && ok(old(calls)) ==>
        var u := Update(old(profiles), id, c, now);
        && (u.Err? ==> r == Err(u.error) && profiles == old(profiles))
        && (u.Ok? ==> r == Ok(u.value.1) && profiles == u.value.0)
    {
      if c == NoChanges {
        return Ok(false);
      }
      calls := calls + 1;
      if !ok(calls - 1) {
        return Err(RequestError);
      }
      var u := Update(profiles, id, c, now);
      if u.Err? {
        return Err(u.error);
      }
      UpdateKeepsKeys(profiles, id, c, now);
      assert forall p :: p in u.value.0 ==> p.profileId < nextId by {
        forall p | p in u.value.0 ensures p.profileId < nextId {
          var i :| 0 <= i < |u.value.0| && u.value.0[i] == p;
          assert profiles[i] in profiles;
        }
      }
      profiles := u.value.0;
      r := Ok(u.value.1);
    }

    /** `sync_from_csv`: a missing file changes nothing and counts nothing; otherwise the row
        loop as `SyncAll`, a raised request ending it with the earlier rows applied. */
    method SyncFromCsv(fileExists: bool, rows: seq<CsvRow>, now: int, ok: Answers) returns (r: Result<SyncStats>)
      requires Valid()
      modifies this
      ensures Valid()
      ensures !fileExists ==> r == Ok(SyncStats(0, 0, 0)) && profiles == old(profiles) && nextId == old(nextId) && calls == old(calls)
      ensures fileExists ==> (Table(profiles, nextId, calls), r) == SyncAll(Table(old(profiles), old(nextId), old(calls)), rows, now, ok)
    {
      var stats := SyncStats(0, 0, 0);
      if !fileExists {
        return Ok(stats);
      }
      ghost var t0 := Table(profiles, nextId, calls);
      var i := 0;
      while i < |rows|
        invariant 0 <= i <= |rows| && Valid()
        invariant (Table(profiles, nextId, calls), Ok(stats)) == SyncAll(t0, rows[..i], now, ok)
      {
        assert rows[..i + 1][..i] == rows[..i];
        var outcome := SyncOne(rows[i], now, ok);
        if outcome.Err? {
          assert (Table(profiles, nextId, calls), Err(outcome.error)) == SyncAll(t0, rows[..i + 1], now, ok);
          SyncStops(t0, rows[..i + 1], rows[i + 1..], now, ok);
          assert rows[..i + 1] + rows[i + 1..] == rows;
          return Err(outcome.error);
        }
        stats := Count(stats, outcome.value);
        i := i + 1;
      }
      assert rows[..i] == rows;
      r := Ok(stats);
    }

    /** The body of the `sync_from_csv` loop for one row. */
    method SyncOne(row: CsvRow, now: int, ok: Answers) returns (r: Result<Outcome>)
      requires Valid()
      modifies this
      ensures Valid()
      ensures (Table(profiles, nextId, calls), r) == SyncRow(Table(old(profiles), old(nextId), old(calls)), row, now, ok)
    {
      if !Complete(row) {
        return Ok(Skipped);
      }
      var username := Strip(row["username"]);
      var name := Strip(row["name"]);
      var existing := GetProfileByUsername(username, ok);
      if existing.Err? {
        return Err(existing.error);
      }
      if existing.value.Some? {
        var u := UpdateProfile(existing.value.value.profileId, SyncChanges(name, now), now, ok);
        if u.Err? {
          return Err(u.error);
        }
        r := Ok(Updated);
      } else {
        var a := AddProfile(username, name, "", "linkedin", now, ok);
        if a.Err? {
          return Err(a.error);
        }
        r := Ok(Added);
      }
    }
  }
}
