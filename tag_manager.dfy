// Tags and profile-tag associations (tag_manager.py). The remote `tags` and `profile_tags`
// tables are fields of a `TagManager` object, with the table constraints the code relies on:
// tag names are unique, a (profile, tag) pair is linked at most once, and a link names an
// existing tag (deleting a tag deletes its links).

module TagManager {
  import opened Common

  // ---------------------------------------------------------------------
  // Rows and name normalisation
  // ---------------------------------------------------------------------

  datatype TagRow = TagRow(tagId: nat, name: string, color: string, description: Option<string>, createdAt: int)

  datatype Link = Link(linkId: nat, profileId: nat, tagId: nat, createdAt: int)

  /** `name.lower().strip()`. */
  function Normalize(name: string): string
  {
    Strip(Lower(name))
  }

  /** A normalised name is its own normal form, so every case or white-space variant of a
      stored name looks it up. */
  lemma NormalizeIdempotent(name: string)
    ensures Normalize(Normalize(name)) == Normalize(name)
  {
    var y := Lower(name);
    var z := Strip(y);
    StripIsInnerSlice(y);
    ContainsIffOccurs(y, z);
    var k :| OccursAt(y, z, k);
    forall i | 0 <= i < |z| ensures Lower(z)[i] == z[i] {
      assert z[i] == y[k + i];
    }
    assert Lower(z) == z;
    StripIdempotent(y);
  }

  /** Python's `'word' in str(e).lower()`. */
  predicate Mentions(message: string, word: string)
  {
    Contains(Lower(message), word)
  }

  /** `DEFAULT_COLORS`. */
  const DefaultColors: map<string, string> := map["aws" := "cyan", "ai" := "magenta", "startup" := "green",
                                                  "finops" := "yellow", "cloud" := "blue", "ml" := "red"]

  /** `DEFAULT_COLORS.get(name, "white")`. */
  function DefaultColor(name: string): string
  {
    if name in DefaultColors then DefaultColors[name] else "white"
  }

  const DefaultTags: seq<string> := ["aws", "ai", "startup"]

  /** A row `_ensure_default_tags` creates: a default tag in its default colour. */
  predicate DefaultRow(t: TagRow)
  {
    t.name in DefaultTags && t.color == DefaultColor(t.name)
  }

  // ---------------------------------------------------------------------
  // Queries on the tables
  // ---------------------------------------------------------------------

  /** The row of the tag named `name`, if any (names are unique). */
  function FindByName(tags: seq<TagRow>, name: string): (r: Option<TagRow>)
    ensures r.Some? ==> r.value in tags && r.value.name == name
    ensures r.None? ==> forall t :: t in tags ==> t.name != name
  {
    if tags == [] then None
    else if tags[0].name == name then Some(tags[0])
    else
      assert forall t :: t in tags ==> t == tags[0] || t in tags[1..];
      FindByName(tags[1..], name)
  }

  /** The row of the tag `id`, if any. */
  function FindById(tags: seq<TagRow>, id: nat): (r: Option<TagRow>)
    ensures r.Some? ==> r.value in tags && r.value.tagId == id
    ensures r.None? ==> forall t :: t in tags ==> t.tagId != id
  {
    if tags == [] then None
    else if tags[0].tagId == id then Some(tags[0])
    else
      assert forall t :: t in tags ==> t == tags[0] || t in tags[1..];
      FindById(tags[1..], id)
  }

  /** A link row selected by `.eq('profile_id', ...)` and/or `.eq('tag_id', ...)`. */
  predicate Selects(l: Link, profile: Option<nat>, tag: Option<nat>)
  {
    (profile.None? || l.profileId == profile.value) && (tag.None? || l.tagId == tag.value)
  }

  /** The links left by a `delete()` with those filters, in their order. */
  function Drop(links: seq<Link>, profile: Option<nat>, tag: Option<nat>): (r: seq<Link>)
    ensures forall l :: l in r <==> l in links && !Selects(l, profile, tag)
    ensures |r| <= |links|
    ensures |r| == |links| <==> forall l :: l in links ==> !Selects(l, profile, tag)
  {
    if links == [] then []
    else
      var rest := Drop(links[1..], profile, tag);
      assert forall l :: l in links ==> l == links[0] || l in links[1..];
      assert forall l :: l in links[1..] ==> l in links;
      if Selects(links[0], profile, tag) then rest else [links[0]] + rest
  }

  /** The tags linked to `profile`. */
  function TagsOf(links: seq<Link>, profile: nat): set<nat>
  {
    set l | l in links && l.profileId == profile :: l.tagId
  }

  /** The tag rows whose id is in `ids`, in table order. */
  function Having(tags: seq<TagRow>, ids: set<nat>): (r: seq<TagRow>)
    ensures forall t :: t in r <==> t in tags && t.tagId in ids
  {
    if tags == [] then []
    else
      var rest := Having(tags[1..], ids);
      assert forall t :: t in tags ==> t == tags[0] || t in tags[1..];
      assert forall t :: t in tags[1..] ==> t in tags;
      if tags[0].tagId in ids then [tags[0]] + rest else rest
  }

  predicate NameLe(a: TagRow, b: TagRow)
  {
    LexLe(a.name, b.name)
  }

  /** `get_profile_tags`: no association gives `[]`; otherwise the linked tags ordered by name. */
  function ProfileTags(tags: seq<TagRow>, links: seq<Link>, profile: nat): seq<TagRow>
  {
    if TagsOf(links, profile) == {} then []
    else SortBy(Having(tags, TagsOf(links, profile)), NameLe)
  }

  /** `get_profile_tag_names`. */
  function ProfileTagNames(tags: seq<TagRow>, links: seq<Link>, profile: nat): (r: seq<string>)
    ensures |r| == |ProfileTags(tags, links, profile)|
    ensures forall i :: 0 <= i < |r| ==> r[i] == ProfileTags(tags, links, profile)[i].name
  {
    var ts := ProfileTags(tags, links, profile);
    seq(|ts|, i requires 0 <= i < |ts| => ts[i].name)
  }

  lemma NameLeTotal()
    ensures TotalPreorder(NameLe)
  {
    forall x: TagRow, y: TagRow ensures NameLe(x, y) || NameLe(y, x) {
      LexLeTotal(x.name, y.name);
    }
    forall x: TagRow, y: TagRow, z: TagRow | NameLe(x, y) && NameLe(y, z) ensures NameLe(x, z) {
      LexLeTransitive(x.name, y.name, z.name);
    }
  }

  /** The profile's tags are exactly the tag rows it is linked to, ordered by name; with no
      association the answer is empty. */
  lemma ProfileTagsFacts(tags: seq<TagRow>, links: seq<Link>, profile: nat)
    ensures var r := ProfileTags(tags, links, profile);
      && (forall t :: t in r <==> t in tags && exists l :: l in links && l.profileId == profile && l.tagId == t.tagId)
      && (forall i, j :: 0 <= i < j < |r| ==> LexLe(r[i].name, r[j].name))
      && ((forall l :: l in links ==> l.profileId != profile) ==> r == [])
  {
    var ids := TagsOf(links, profile);
    if ids != {} {
      var h := Having(tags, ids);
      NameLeTotal();
      SortByFacts(h, NameLe);
      var r := SortBy(h, NameLe);
      forall t ensures t in r <==> t in h {
        assert t in r <==> t in multiset(r);
        assert t in h <==> t in multiset(h);
      }
      forall t | t in tags && (exists l :: l in links && l.profileId == profile && l.tagId == t.tagId)
        ensures t.tagId in ids
      {
        var l :| l in links && l.profileId == profile && l.tagId == t.tagId;
      }
      forall t | t in tags && t.tagId in ids
        ensures exists l :: l in links && l.profileId == profile && l.tagId == t.tagId
      {
        assert t.tagId in TagsOf(links, profile);
      }
    } else {
      forall l | l in links ensures l.profileId != profile {
        assert l.profileId == profile ==> l.tagId in ids;
      }
    }
  }

  // ---------------------------------------------------------------------
  // set_profile_tags
  // ---------------------------------------------------------------------

  /** The rows `set_profile_tags` inserts, with fresh ids from `next` on. */
  function NewLinks(profile: nat, tagIds: seq<nat>, next: nat, now: int): (r: seq<Link>)
    ensures |r| == |tagIds|
    ensures forall i :: 0 <= i < |r| ==> r[i] == Link(next + i, profile, tagIds[i], now)
  {
    if tagIds == [] then [] else [Link(next, profile, tagIds[0], now)] + NewLinks(profile, tagIds[1..], next + 1, now)
  }

  /** Whether a batch insert of the profile's links satisfies the constraints: no tag twice and
      every tag present. */
  predicate BatchOk(tags: seq<TagRow>, tagIds: seq<nat>)
  {
    && (forall i, j :: 0 <= i < j < |tagIds| ==> tagIds[i] != tagIds[j])
    && (forall i :: 0 <= i < |tagIds| ==> FindById(tags, tagIds[i]).Some?)
  }

  /** The links after `set_profile_tags`: the old links of the profile are deleted and, when the
      batch is accepted, one link per requested tag is added. */
  function SetTags(tags: seq<TagRow>, links: seq<Link>, profile: nat, tagIds: seq<nat>, next: nat, now: int): seq<Link>
  {
    var kept := Drop(links, Some(profile), None);
    if tagIds != [] && BatchOk(tags, tagIds) then kept + NewLinks(profile, tagIds, next, now) else kept
  }

  /** After an accepted `set_profile_tags` the profile is linked to exactly the requested tags
      and every other profile keeps exactly its links. */
  lemma SetTagsExact(tags: seq<TagRow>, links: seq<Link>, profile: nat, tagIds: seq<nat>, next: nat, now: int)
    requires tagIds == [] || BatchOk(tags, tagIds)
    ensures var r := SetTags(tags, links, profile, tagIds, next, now);
      && (forall t :: t in TagsOf(r, profile) <==> t in tagIds)
      && (forall l :: l in r && l.profileId != profile <==> l in links && l.profileId != profile)
  {
    var r := SetTags(tags, links, profile, tagIds, next, now);
    var kept := Drop(links, Some(profile), None);
    var added := if tagIds != [] then NewLinks(profile, tagIds, next, now) else [];
    assert r == kept + added;
    forall t ensures t in TagsOf(r, profile) <==> t in tagIds {
      if t in tagIds {
        var i :| 0 <= i < |tagIds| && tagIds[i] == t;
        assert added[i] in r;
      }
      if t in TagsOf(r, profile) {
        var l :| l in r && l.profileId == profile && l.tagId == t;
        var i :| 0 <= i < |added| && added[i] == l;
      }
    }
  }

  // ---------------------------------------------------------------------
  // The table constraints
  // ---------------------------------------------------------------------

  ghost predicate TagsDistinct(tags: seq<TagRow>)
  {
    forall i, j :: 0 <= i < j < |tags| ==> tags[i].name != tags[j].name && tags[i].tagId != tags[j].tagId
  }

  ghost predicate LinksDistinct(links: seq<Link>)
  {
    forall i, j :: 0 <= i < j < |links| ==>
      links[i].linkId != links[j].linkId
      && (links[i].profileId != links[j].profileId || links[i].tagId != links[j].tagId)
  }

  /** Valid tables: stored names are normalised and unique, ids are unique and below `next`,
      a (profile, tag) pair is linked once, and links name existing tags. */
  ghost predicate Tables(tags: seq<TagRow>, links: seq<Link>, next: nat)
  {
    && (forall t :: t in tags ==> Normalize(t.name) == t.name && t.tagId < next)
    && TagsDistinct(tags)
    && (forall l :: l in links ==> l.linkId < next && FindById(tags, l.tagId).Some?)
    && LinksDistinct(links)
  }

  // ---------------------------------------------------------------------
  // rename_tag and tag_profile outcomes
  // ---------------------------------------------------------------------

  const DuplicateError: string := "duplicate" + " key value violates unique constraint"
  const ForeignKeyError: string := "insert or update violates foreign key constraint"

  /** `rename_tag` to the normalised name `name`: False for a missing tag, an error when another
      tag holds the name, True otherwise. */
  function RenameOutcome(tags: seq<TagRow>, tagId: nat, name: string): Result<bool>
  {
    if FindById(tags, tagId).None? then Ok(false)
    else
      var other := FindByName(tags, name);
      if other.Some? && other.value.tagId != tagId then Err(DuplicateError) else Ok(true)
  }

  function Renamed(tags: seq<TagRow>, tagId: nat, name: string): seq<TagRow>
  {
    if RenameOutcome(tags, tagId, name) == Ok(true) then RenameRows(tags, tagId, name) else tags
  }

  /** After a successful rename to the normalised name `n`, looking `n` up finds the renamed
      tag, and every other tag is as it was; otherwise nothing changes. */
  lemma RenameFacts(tags: seq<TagRow>, tagId: nat, n: string)
    ensures var r := Renamed(tags, tagId, n);
      && |r| == |tags|
      && (forall i :: 0 <= i < |tags| && tags[i].tagId != tagId ==> r[i] == tags[i])
      && (RenameOutcome(tags, tagId, n) != Ok(true) ==> r == tags)
      && (RenameOutcome(tags, tagId, n) == Ok(true) ==>
            FindByName(r, n).Some? && FindByName(r, n).value.tagId == tagId
            && FindById(r, tagId) == Some(FindById(tags, tagId).value.(name := n)))
  {
    var r := Renamed(tags, tagId, n);
    if RenameOutcome(tags, tagId, n) == Ok(true) {
      assert r == RenameRows(tags, tagId, n);
      FindByIdRenamed(tags, tagId, n);
      FindByNameRenamed(tags, tagId, n);
    } else {
      assert r == tags;
    }
  }

  lemma {:induction false} FindByNameRenamed(tags: seq<TagRow>, id: nat, name: string)
    requires FindById(tags, id).Some?
    requires FindByName(tags, name).None? || FindByName(tags, name).value.tagId == id
    ensures FindByName(RenameRows(tags, id, name), name).Some?
    ensures FindByName(RenameRows(tags, id, name), name).value.tagId == id
  {
    var r := RenameRows(tags, id, name);
    assert r[1..] == RenameRows(tags[1..], id, name);
    if tags[0].tagId != id {
      assert tags[0] in tags;
      assert forall t :: t in tags[1..] ==> t in tags;
      FindByNameRenamed(tags[1..], id, name);
    }
  }

  /** The error the `profile_tags` insert meets, if any: the unique pair constraint, an error
      from outside the model (`fault`), or the foreign key to `tags`. */
  function InsertError(tags: seq<TagRow>, links: seq<Link>, profile: nat, tag: nat, fault: Option<string>): Option<string>
  {
    if Linked(links, profile, tag) then Some(DuplicateError)
    else if fault.Some? then fault
    else if FindById(tags, tag).None? then Some(ForeignKeyError)
    else None
  }

  /** `tag_profile`'s answer to the insert's outcome. */
  function TagResult(error: Option<string>): Result<bool>
  {
    match error
    case None => Ok(true)
    case Some(m) => if Mentions(m, "duplicate") || Mentions(m, "unique") then Ok(false) else Err(m)
  }

  /** `tag_profile` answers False for a pair already linked and for any error that mentions a
      duplicate or a unique constraint; every error it raises mentions neither; and it answers
      True exactly when the insert went through. */
  lemma TagProfileFacts(tags: seq<TagRow>, links: seq<Link>, profile: nat, tag: nat, fault: Option<string>)
    ensures var r := TagResult(InsertError(tags, links, profile, tag, fault));
      && (Linked(links, profile, tag) ==> r == Ok(false))
      && (!Linked(links, profile, tag) && fault.Some? ==>
            (r == Ok(false) <==> Mentions(fault.value, "duplicate") || Mentions(fault.value, "unique")))
      && (r.Err? ==> !Mentions(r.error, "duplicate") && !Mentions(r.error, "unique"))
      && (r == Ok(true) <==> InsertError(tags, links, profile, tag, fault).None?)
  {
    DuplicateMentioned();
  }

  /** The unique-constraint message mentions "duplicate". */
  lemma DuplicateMentioned()
    ensures Mentions(DuplicateError, "duplicate")
  {
    MentionsPrefix("duplicate", " key value violates unique constraint");
  }

  lemma MentionsPrefix(w: string, rest: string)
    requires forall c :: c in w ==> !('A' <= c <= 'Z')
    ensures Mentions(w + rest, w)
  {
    var s := Lower(w + rest);
    LowerConcat(w, rest);
    LowerKeeps(w);
    assert s[..|w|] == w;
    assert OccursAt(s, w, 0);
    ContainsIffOccurs(s, w);
  }

  predicate Linked(links: seq<Link>, profile: nat, tag: nat)
  {
    exists l :: l in links && l.profileId == profile && l.tagId == tag
  }

  // ---------------------------------------------------------------------
  // TagManager
  // ---------------------------------------------------------------------

  class TagManager {
    var tags: seq<TagRow>
    var links: seq<Link>
    var nextId: nat

    ghost predicate Valid()
      reads this
    {
      Tables(tags, links, nextId)
    }

    /** `TagManager()` on the current tables: the default tags are ensured at once. */
    constructor(tags0: seq<TagRow>, links0: seq<Link>, next0: nat, now: int)
      requires Tables(tags0, links0, next0)
      ensures Valid() && links == links0 && tags0 <= tags
      ensures forall k :: 0 <= k < |DefaultTags| ==> FindByName(tags, DefaultTags[k]).Some?
    {
      tags, links, nextId := tags0, links0, next0;
      new;
      EnsureDefaultTags(now);
    }

    /** `add_tag`: the normalised name is stored under a fresh id; the unique name constraint
        rejects a name already present. */
    method AddTag(name: string, color: string, description: Option<string>, now: int) returns (r: Result<nat>)
      requires Valid()
      modifies this
      ensures Valid() && links == old(links)
      ensures FindByName(old(tags), Normalize(name)).Some? ==>
        r.Err? && tags == old(tags) && nextId == old(nextId)
      ensures FindByName(old(tags), Normalize(name)).None? ==>
        && r == Ok(old(nextId)) && nextId == old(nextId) + 1
        && tags == old(tags) + [TagRow(old(nextId), Normalize(name), color, description, now)]
    {
      var n := Normalize(name);
      if FindByName(tags, n).Some? {
        return Err(DuplicateError);
      }
      NormalizeIdempotent(name);
      var id := nextId;
      var row := TagRow(id, n, color, description, now);
      TablesAddTag(tags, links, nextId, row);
      tags := tags + [row];
      nextId := nextId + 1;
      r := Ok(id);
    }

    /** `get_tag_by_name`: looks the normalised name up. */
    function GetTagByName(name: string): (r: Option<TagRow>)
      reads this
      ensures r.Some? ==> r.value in tags && r.value.name == Normalize(name)
      ensures r.None? ==> forall t :: t in tags ==> t.name != Normalize(name)
    {
      FindByName(tags, Normalize(name))
    }

    /** One default tag: created with its default colour unless it exists. */
    method EnsureTag(n: string, now: int)
      requires Valid() && Normalize(n) == n && n in DefaultTags
      modifies this
      ensures Valid() && links == old(links) && old(tags) <= tags
      ensures FindByName(tags, n).Some?
      ensures FindByName(old(tags), n).Some? ==> tags == old(tags)
      ensures FindByName(old(tags), n).None? ==>
        tags == old(tags) + [TagRow(old(nextId), n, DefaultColor(n), None, now)]
      ensures forall m :: FindByName(old(tags), m).Some? ==> FindByName(tags, m) == FindByName(old(tags), m)
      ensures FindByName(old(tags), n).None? ==> DefaultRow(tags[|old(tags)|])
    {
      if GetTagByName(n).None? {
        var _ := AddTag(n, DefaultColor(n), None, now);
        forall m | FindByName(old(tags), m).Some? ensures FindByName(tags, m) == FindByName(old(tags), m) {
          FindAfterAppend(old(tags), tags[|old(tags)|], m);
        }
        FindAfterAppend(old(tags), tags[|old(tags)|], n);
      }
    }

    /** `_ensure_default_tags`: aws, ai and startup exist afterwards; existing rows are kept,
        every row added is a default tag with its default colour, and when all three existed
        nothing changes. */
    method EnsureDefaultTags(now: int)
      requires Valid()
      modifies this
      ensures Valid() && links == old(links) && old(tags) <= tags
      ensures forall k :: 0 <= k < |DefaultTags| ==> FindByName(tags, DefaultTags[k]).Some?
      ensures forall j :: |old(tags)| <= j < |tags| ==> DefaultRow(tags[j])
      ensures (forall k :: 0 <= k < |DefaultTags| ==> FindByName(old(tags), DefaultTags[k]).Some?) ==> tags == old(tags)
    {
      DefaultsNormal();
      var names := DefaultTags;
      var i := 0;
      while i < |names|
        invariant 0 <= i <= |names| && Valid() && links == old(links) && old(tags) <= tags
        invariant forall k :: 0 <= k < i ==> FindByName(tags, names[k]).Some?
        invariant AllDefault(tags[|old(tags)|..])
        invariant (forall k :: 0 <= k < |names| ==> FindByName(old(tags), names[k]).Some?) ==> tags == old(tags)
      {
        ghost var before := tags;
        assert names[i] in DefaultTags;
        EnsureTag(names[i], now);
        DefaultsStep(old(tags), before, tags, names, i);
        i := i + 1;
      }
      forall j | |old(tags)| <= j < |tags| ensures DefaultRow(tags[j]) {
        AllDefaultAt(tags[|old(tags)|..], j - |old(tags)|);
      }
    }

    /** `get_or_create_tag`: an existing tag is returned without inserting; otherwise the tag
        is added once and its new row returned. */
    method GetOrCreateTag(name: string, color: string, description: Option<string>, now: int) returns (tag: TagRow)
      requires Valid()
      modifies this
      ensures Valid() && links == old(links)
      ensures tag in tags && tag.name == Normalize(name)
      ensures FindByName(old(tags), Normalize(name)).Some? ==>
        tags == old(tags) && tag == FindByName(old(tags), Normalize(name)).value
      ensures FindByName(old(tags), Normalize(name)).None? ==>
        tags == old(tags) + [tag] && tag == TagRow(old(nextId), Normalize(name), color, description, now)
    {
      var found := GetTagByName(name);
      if found.Some? {
        return found.value;
      }
      var r := AddTag(name, color, description, now);
      var id := r.value;
      FindByIdLast(tags, id);
      tag := FindById(tags, id).value;
    }

    /** `delete_tag`: removes the tag and, by the cascade, its links; reports whether the tag
        existed. */
    method DeleteTag(tagId: nat) returns (deleted: bool)
      requires Valid()
      modifies this
      ensures Valid() && nextId == old(nextId)
      ensures deleted <==> FindById(old(tags), tagId).Some?
      ensures tags == DropTag(old(tags), tagId) && FindById(tags, tagId).None?
      ensures links == Drop(old(links), None, Some(tagId))
    {
      deleted := FindById(tags, tagId).Some?;
      TablesDropTag(tags, links, nextId, tagId);
      tags := DropTag(tags, tagId);
      links := Drop(links, None, Some(tagId));
    }

    /** `rename_tag`: see `RenameOutcome` and `RenameFacts`. */
    method RenameTag(tagId: nat, newName: string) returns (r: Result<bool>)
      requires Valid()
      modifies this
      ensures Valid() && links == old(links) && nextId == old(nextId)
      ensures r == RenameOutcome(old(tags), tagId, Normalize(newName))
      ensures tags == Renamed(old(tags), tagId, Normalize(newName))
    {
      var n := Normalize(newName);
      r := RenameOutcome(tags, tagId, n);
      if r == Ok(true) {
        NormalizeIdempotent(newName);
        TablesRename(tags, links, nextId, tagId, n);
        tags := RenameRows(tags, tagId, n);
      }
    }

    /** `tag_profile`: see `TagResult` and `TagProfileFacts`. */
    method TagProfile(profileId: nat, tagId: nat, fault: Option<string>, now: int) returns (r: Result<bool>)
      requires Valid()
      modifies this
      ensures Valid() && tags == old(tags)
      ensures r == TagResult(InsertError(tags, old(links), profileId, tagId, fault))
      ensures r == Ok(true) ==> links == old(links) + [Link(old(nextId), profileId, tagId, now)]
      ensures r != Ok(true) ==> links == old(links)
    {
      var error := InsertError(tags, links, profileId, tagId, fault);
      r := TagResult(error);
      if error.None? {
        var link := Link(nextId, profileId, tagId, now);
        TablesLink(tags, links, nextId, link);
        links := links + [link];
        nextId := nextId + 1;
      }
    }

    /** `untag_profile`: deletes the pair's links and reports whether there was one. */
    method UntagProfile(profileId: nat, tagId: nat) returns (removed: bool)
      requires Valid()
      modifies this
      ensures Valid() && tags == old(tags) && nextId == old(nextId)
      ensures links == Drop(old(links), Some(profileId), Some(tagId))
      ensures removed <==> Linked(old(links), profileId, tagId)
      ensures !Linked(links, profileId, tagId)
    {
      removed := |Drop(links, Some(profileId), Some(tagId))| < |links|;
      TablesDrop(tags, links, nextId, Some(profileId), Some(tagId));
      links := Drop(links, Some(profileId), Some(tagId));
    }

    /** `clear_profile_tags`: the profile keeps no link. */
    method ClearProfileTags(profileId: nat)
      requires Valid()
      modifies this
      ensures Valid() && tags == old(tags) && nextId == old(nextId)
      ensures links == Drop(old(links), Some(profileId), None)
      ensures TagsOf(links, profileId) == {}
    {
      TablesDrop(tags, links, nextId, Some(profileId), None);
      links := Drop(links, Some(profileId), None);
    }

    /** `set_profile_tags`: the profile's links are deleted, then one link per requested tag is
        inserted in one batch; a batch the constraints reject raises after the deletion. */
    method SetProfileTags(profileId: nat, tagIds: seq<nat>, now: int) returns (r: Result<()>)
      requires Valid()
      modifies this
      ensures Valid() && tags == old(tags)
      ensures links == SetTags(tags, old(links), profileId, tagIds, old(nextId), now)
      ensures r.Err? <==> tagIds != [] && !BatchOk(tags, tagIds)
    {
      TablesDrop(tags, links, nextId, Some(profileId), None);
      links := Drop(links, Some(profileId), None);
      if tagIds == [] {
        return Ok(());
      }
      if !BatchOk(tags, tagIds) {
        return Err(DuplicateError);
      }
      TablesSetTags(tags, links, nextId, profileId, tagIds, now);
      links := links + NewLinks(profileId, tagIds, nextId, now);
      nextId := nextId + |tagIds|;
      r := Ok(());
    }
  }

  // ---------------------------------------------------------------------
  // Table helpers
  // ---------------------------------------------------------------------

  function DropTag(tags: seq<TagRow>, id: nat): (r: seq<TagRow>)
    ensures forall t :: t in r <==> t in tags && t.tagId != id
  {
    if tags == [] then []
    else
      var rest := DropTag(tags[1..], id);
      assert forall t :: t in tags ==> t == tags[0] || t in tags[1..];
      assert forall t :: t in tags[1..] ==> t in tags;
      if tags[0].tagId == id then rest else [tags[0]] + rest
  }

  function RenameRows(tags: seq<TagRow>, id: nat, name: string): (r: seq<TagRow>)
    ensures |r| == |tags|
    ensures forall i :: 0 <= i < |tags| ==> r[i] == if tags[i].tagId == id then tags[i].(name := name) else tags[i]
  {
    if tags == [] then [] else [if tags[0].tagId == id then tags[0].(name := name) else tags[0]] + RenameRows(tags[1..], id, name)
  }

  lemma {:induction false} FindAfterAppend(tags: seq<TagRow>, t: TagRow, n: string)
    ensures FindByName(tags, n).Some? ==> FindByName(tags + [t], n) == FindByName(tags, n)
    ensures FindByName(tags, n).None? && t.name == n ==> FindByName(tags + [t], n) == Some(t)
  {
    if tags != [] {
      assert (tags + [t])[1..] == tags[1..] + [t];
      FindAfterAppend(tags[1..], t, n);
    }
  }

  /** One step of `_ensure_default_tags`: the names seen so far stay found and every row
      added since `base` is a default row. */
  lemma {:induction false} DefaultsStep(base: seq<TagRow>, before: seq<TagRow>, after: seq<TagRow>, names: seq<string>, i: nat)
    requires i < |names| && base <= before && before <= after
    requires forall k :: 0 <= k < i ==> FindByName(before, names[k]).Some?
    requires AllDefault(before[|base|..])
    requires FindByName(after, names[i]).Some?
    requires FindByName(before, names[i]).Some? ==> after == before
    requires FindByName(before, names[i]).None? ==> |after| == |before| + 1 && DefaultRow(after[|before|])
    requires forall m :: FindByName(before, m).Some? ==> FindByName(after, m) == FindByName(before, m)
    ensures base <= after
    ensures forall k :: 0 <= k <= i ==> FindByName(after, names[k]).Some?
    ensures AllDefault(after[|base|..])
  {
    if FindByName(before, names[i]).None? {
      assert after[|base|..] == before[|base|..] + [after[|before|]];
      AllDefaultAppend(before[|base|..], after[|before|]);
    }
    forall k | 0 <= k <= i ensures FindByName(after, names[k]).Some? {
      if k < i {
        assert FindByName(before, names[k]).Some?;
      }
    }
  }

  /** Every row of `s` is a default row. */
  predicate AllDefault(s: seq<TagRow>)
  {
    s == [] || (DefaultRow(s[0]) && AllDefault(s[1..]))
  }

  lemma {:induction false} AllDefaultAt(s: seq<TagRow>, j: nat)
    requires AllDefault(s) && j < |s|
    ensures DefaultRow(s[j])
  {
    if j > 0 {
      AllDefaultAt(s[1..], j - 1);
    }
  }

  lemma {:induction false} AllDefaultAppend(s: seq<TagRow>, t: TagRow)
    requires AllDefault(s) && DefaultRow(t)
    ensures AllDefault(s + [t])
  {
    if s != [] {
      assert (s + [t])[1..] == s[1..] + [t];
      AllDefaultAppend(s[1..], t);
    }
  }

  lemma {:induction false} FindByIdLast(tags: seq<TagRow>, id: nat)
    requires tags != [] && tags[|tags| - 1].tagId == id
    requires forall i :: 0 <= i < |tags| - 1 ==> tags[i].tagId != id
    ensures FindById(tags, id) == Some(tags[|tags| - 1])
    decreases |tags|
  {
    if |tags| > 1 {
      FindByIdLast(tags[1..], id);
    }
  }

  lemma {:induction false} FindByIdRenamed(tags: seq<TagRow>, id: nat, name: string)
    requires FindById(tags, id).Some?
    ensures FindById(RenameRows(tags, id, name), id) == Some(FindById(tags, id).value.(name := name))
  {
    var r := RenameRows(tags, id, name);
    assert r[1..] == RenameRows(tags[1..], id, name);
    if tags[0].tagId != id {
      FindByIdRenamed(tags[1..], id, name);
    }
  }

  lemma DefaultsNormal()
    ensures forall n :: n in DefaultTags ==> Normalize(n) == n
  {
    LowerKeeps("aws");
    LowerKeeps("ai");
    LowerKeeps("startup");
    assert Strip("aws") == "aws" by { assert TrimStart("aws") == "aws"; }
    assert Strip("ai") == "ai" by { assert TrimStart("ai") == "ai"; }
    assert Strip("startup") == "startup" by { assert TrimStart("startup") == "startup"; }
  }

  lemma TablesAddTag(tags: seq<TagRow>, links: seq<Link>, next: nat, row: TagRow)
    requires Tables(tags, links, next) && row.tagId == next && Normalize(row.name) == row.name
    requires FindByName(tags, row.name).None?
    ensures Tables(tags + [row], links, next + 1)
  {
    var r := tags + [row];
    forall l | l in links ensures FindById(r, l.tagId).Some? {
      FindByIdAppend(tags, row, l.tagId);
    }
    forall i, j | 0 <= i < j < |r| ensures r[i].name != r[j].name && r[i].tagId != r[j].tagId {
      if j == |tags| {
        assert r[i] in tags;
      }
    }
  }

  lemma {:induction false} FindByIdAppend(tags: seq<TagRow>, t: TagRow, id: nat)
    ensures FindById(tags, id).Some? ==> FindById(tags + [t], id).Some?
  {
    if tags != [] {
      assert (tags + [t])[1..] == tags[1..] + [t];
      FindByIdAppend(tags[1..], t, id);
    }
  }

  lemma TablesDropTag(tags: seq<TagRow>, links: seq<Link>, next: nat, id: nat)
    requires Tables(tags, links, next)
    ensures Tables(DropTag(tags, id), Drop(links, None, Some(id)), next)
    ensures FindById(DropTag(tags, id), id).None?
  {
    var ts := DropTag(tags, id);
    DropTagDistinct(tags, id);
    DropDistinct(links, None, Some(id));
    forall l | l in Drop(links, None, Some(id)) ensures FindById(ts, l.tagId).Some? {
      var t := FindById(tags, l.tagId).value;
      assert t in ts;
    }
  }

  lemma TablesDrop(tags: seq<TagRow>, links: seq<Link>, next: nat, profile: Option<nat>, tag: Option<nat>)
    requires Tables(tags, links, next)
    ensures Tables(tags, Drop(links, profile, tag), next)
  {
    DropDistinct(links, profile, tag);
  }

  lemma {:induction false} DropDistinct(links: seq<Link>, profile: Option<nat>, tag: Option<nat>)
    requires LinksDistinct(links)
    ensures LinksDistinct(Drop(links, profile, tag))
    decreases |links|
  {
    if links != [] {
      var rest := Drop(links[1..], profile, tag);
      assert LinksDistinct(links[1..]);
      DropDistinct(links[1..], profile, tag);
      if !Selects(links[0], profile, tag) {
        var r := [links[0]] + rest;
        forall i, j | 0 <= i < j < |r|
          ensures r[i].linkId != r[j].linkId && (r[i].profileId != r[j].profileId || r[i].tagId != r[j].tagId)
        {
          if i == 0 {
            assert r[j] in links[1..];
            var k :| 0 <= k < |links[1..]| && links[1..][k] == r[j];
            assert links[k + 1] == r[j];
          }
        }
      }
    }
  }

  lemma {:induction false} DropTagDistinct(tags: seq<TagRow>, id: nat)
    requires TagsDistinct(tags)
    ensures TagsDistinct(DropTag(tags, id))
    decreases |tags|
  {
    if tags != [] {
      var rest := DropTag(tags[1..], id);
      assert TagsDistinct(tags[1..]);
      DropTagDistinct(tags[1..], id);
      if tags[0].tagId != id {
        var r := [tags[0]] + rest;
        forall i, j | 0 <= i < j < |r| ensures r[i].name != r[j].name && r[i].tagId != r[j].tagId {
          if i == 0 {
            assert r[j] in tags[1..];
            var k :| 0 <= k < |tags[1..]| && tags[1..][k] == r[j];
            assert tags[k + 1] == r[j];
          }
        }
      }
    }
  }

  lemma TablesRename(tags: seq<TagRow>, links: seq<Link>, next: nat, id: nat, name: string)
    requires Tables(tags, links, next) && Normalize(name) == name
    requires FindByName(tags, name).None? || FindByName(tags, name).value.tagId == id
    ensures Tables(RenameRows(tags, id, name), links, next)
  {
    var r := RenameRows(tags, id, name);
    forall t | t in r ensures Normalize(t.name) == t.name && t.tagId < next {
      var i :| 0 <= i < |r| && r[i] == t;
      assert tags[i] in tags;
    }
    RenameDistinct(tags, id, name);
    forall l | l in links ensures FindById(r, l.tagId).Some? {
      var t := FindById(tags, l.tagId).value;
      var i :| 0 <= i < |tags| && tags[i] == t;
      assert r[i].tagId == l.tagId && r[i] in r;
    }
  }

  lemma RenameDistinct(tags: seq<TagRow>, id: nat, name: string)
    requires TagsDistinct(tags)
    requires FindByName(tags, name).None? || FindByName(tags, name).value.tagId == id
    ensures TagsDistinct(RenameRows(tags, id, name))
  {
    var r := RenameRows(tags, id, name);
    forall i, j | 0 <= i < j < |r| ensures r[i].name != r[j].name && r[i].tagId != r[j].tagId {
      if r[i].name == name && r[j].name == name {
        if tags[i].tagId == id {
          assert tags[j].tagId != id && tags[j].name == name;
          UniqueName(tags, name, i, j);
        } else {
          assert tags[i].name == name;
          UniqueName(tags, name, i, j);
        }
      }
    }
  }

  /** With unique names, the row `FindByName` returns is the only one with that name. */
  lemma UniqueName(tags: seq<TagRow>, name: string, i: nat, j: nat)
    requires TagsDistinct(tags) && i < j < |tags|
    requires tags[i].name == name || tags[j].name == name
    ensures FindByName(tags, name).Some?
    ensures tags[i].name == name ==> FindByName(tags, name).value == tags[i]
    ensures tags[j].name == name ==> FindByName(tags, name).value == tags[j]
  {
    var t := FindByName(tags, name).value;
    var k :| 0 <= k < |tags| && tags[k] == t;
  }

  lemma TablesLink(tags: seq<TagRow>, links: seq<Link>, next: nat, link: Link)
    requires Tables(tags, links, next) && link.linkId == next && FindById(tags, link.tagId).Some?
    requires !Linked(links, link.profileId, link.tagId)
    ensures Tables(tags, links + [link], next + 1)
  {
    var r := links + [link];
    forall i, j | 0 <= i < j < |r|
      ensures r[i].linkId != r[j].linkId && (r[i].profileId != r[j].profileId || r[i].tagId != r[j].tagId)
    {
      if j == |links| {
        assert r[i] in links;
      }
    }
  }

  lemma TablesSetTags(tags: seq<TagRow>, links: seq<Link>, next: nat, profile: nat, tagIds: seq<nat>, now: int)
    requires Tables(tags, links, next) && BatchOk(tags, tagIds)
    requires forall l :: l in links ==> l.profileId != profile
    ensures Tables(tags, links + NewLinks(profile, tagIds, next, now), next + |tagIds|)
  {
    var added := NewLinks(profile, tagIds, next, now);
    var r := links + added;
    forall l | l in r ensures l.linkId < next + |tagIds| && FindById(tags, l.tagId).Some? {
      if l in added {
        var i :| 0 <= i < |added| && added[i] == l;
      }
    }
    forall i, j | 0 <= i < j < |r|
      ensures r[i].linkId != r[j].linkId && (r[i].profileId != r[j].profileId || r[i].tagId != r[j].tagId)
    {
      if j >= |links| && i < |links| {
        assert r[i] in links;
        assert r[j] == added[j - |links|];
      } else if i >= |links| {
        assert r[i] == added[i - |links|] && r[j] == added[j - |links|];
      }
    }
  }
}
