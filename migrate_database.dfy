/**
 * Migrating the old SQLite schema to the new one (migrate_database.py).
 *
 * The source tables are sequences of rows; the profiles, tags and profile_tags tables may
 * be missing. The destination is an SQLite database holding the constraints the new schema
 * declares (primary keys, NOT NULL, UNIQUE, and the profile_tags foreign keys, which the
 * schema switches on): an insert that breaks one raises and is counted as an error.
 * `generate_aws_id` (from db_utils.py, which is not part of this model) is an oracle giving
 * the id of the n-th draw; `json.loads` is an oracle too.
 */
module MigrateDatabase {
  import opened Common

  /** A value read from the source database. */
  type Scalar = j: Json | Bindable(j) witness JNull

  datatype Prefix = PostPrefix | ProfilePrefix | TagPrefix | ProfileTagPrefix

  /** The id generator (the n-th draw with a prefix), `json.loads`, and the clock reading. */
  datatype Env = Env(newId: (Prefix, nat) -> string, parse: string -> Result<Json>, now: string)

  // ---------------------------------------------------------------------
  // Rows
  // ---------------------------------------------------------------------

  datatype SourcePost = SourcePost(urn: Option<string>, fullUrn: Scalar, postedAt: Option<int>, author: Scalar,
                                   text: Scalar, jsonData: Option<string>, firstSeen: Scalar, isRead: Scalar,
                                   isMarked: Scalar)

  datatype SourceProfile = SourceProfile(id: int, username: Option<string>, name: Option<string>, createdAt: Scalar,
                                         updatedAt: Scalar, isActive: Scalar, notes: Scalar, postCount: Scalar,
                                         lastSynced: Scalar)

  datatype SourceTag = SourceTag(id: int, name: Option<string>, color: Scalar, createdAt: Scalar)

  datatype SourceLink = SourceLink(id: int, profileId: Option<int>, tagId: Option<int>, createdAt: Scalar)

  datatype PostRow = PostRow(postId: string, urn: string, fullUrn: Scalar, platform: string, postedAt: int,
                             author: Scalar, text: Scalar, postType: Json, url: Json, rawJson: Option<string>,
                             firstSeen: Scalar, isRead: Scalar, isMarked: Scalar, createdAt: string, updatedAt: string)

  datatype ProfileRow = ProfileRow(profileId: string, username: string, name: string, platform: string,
                                   isActive: Scalar, notes: Scalar, postCount: Scalar, lastSynced: Scalar,
                                   createdAt: Scalar, updatedAt: Scalar)

  datatype TagRow = TagRow(tagId: string, name: string, description: Option<string>, color: Scalar, createdAt: Scalar)

  datatype LinkRow = LinkRow(linkId: string, profileId: string, tagId: string, createdAt: Scalar)

  datatype Dest = Dest(posts: seq<PostRow>, profiles: seq<ProfileRow>, tags: seq<TagRow>, links: seq<LinkRow>)

  /** The source database; None: the table does not exist. */
  datatype Source = Source(posts: seq<SourcePost>, profiles: Option<seq<SourceProfile>>, tags: Option<seq<SourceTag>>,
                           links: Option<seq<SourceLink>>)

  /** The `total`, `migrated` and `errors` counters of one entity. */
  datatype Tally = Tally(total: nat, migrated: nat, errors: nat)

  /** Everything the migration object holds: the destination, the number of ids drawn, the four
      entity counters and the two old-to-new id mappings. */
  datatype Mig = Mig(dest: Dest, draws: nat, posts: Tally, profiles: Tally, tags: Tally, links: Tally,
                     profileMap: map<int, string>, tagMap: map<int, string>)

  const Zero: Tally := Tally(0, 0, 0)

  const Fresh: Mig := Mig(Dest([], [], [], []), 0, Zero, Zero, Zero, Zero, map[], map[])

  function Migrated(t: Tally): Tally { t.(migrated := t.migrated + 1) }

  function Failed(t: Tally): Tally { t.(errors := t.errors + 1) }

  // ---------------------------------------------------------------------
  // migrate_posts
  // ---------------------------------------------------------------------

  /** `post_type` and `url` read from `json_data`; Err: reading them raised (the JSON is valid
      but not an object, so it has no `get`). */
  function PostFields(jsonData: Option<string>, parse: string -> Result<Json>): (r: Result<(Json, Json)>)
    ensures jsonData.None? || jsonData == Some("") ==> r == Ok((JNull, JNull))
    ensures jsonData.Some? && parse(jsonData.value).Err? ==> r == Ok((JNull, JNull))
    ensures jsonData.Some? && jsonData.value != "" && parse(jsonData.value).Ok? ==>
      (r.Ok? <==> parse(jsonData.value).value.JObject?)
    ensures r.Ok? && jsonData.Some? && jsonData.value != "" && parse(jsonData.value).Ok? ==>
      var fields := parse(jsonData.value).value.fields;
      && r.value.0 == (if "post_type" in fields then fields["post_type"] else JStr("regular"))
      && r.value.1 == (if "url" in fields then fields["url"] else JNull)
  {
    if jsonData.None? || jsonData.value == "" then Ok((JNull, JNull))
    else
      match parse(jsonData.value)
      case Err(_) => Ok((JNull, JNull))
      case Ok(obj) =>
        if obj.JObject? then Ok((GetOr(obj.fields, "post_type", JStr("regular")), GetOr(obj.fields, "url", JNull)))
        else Err("object has no attribute 'get'")
  }

  /** `post_type` is `regular` exactly when valid JSON object text without the key, or with
      that value, was given; it is NULL when there is no JSON or it does not parse. */
  lemma PostTypeDefault(jsonData: Option<string>, parse: string -> Result<Json>)
    requires PostFields(jsonData, parse).Ok?
    ensures PostFields(jsonData, parse).value.0 == JNull <==>
      || jsonData.None? || jsonData == Some("") || parse(jsonData.value).Err?
      || ("post_type" in parse(jsonData.value).value.fields && parse(jsonData.value).value.fields["post_type"] == JNull)
    ensures (jsonData.Some? && jsonData.value != "" && parse(jsonData.value).Ok?
             && "post_type" !in parse(jsonData.value).value.fields)
      ==> PostFields(jsonData, parse).value.0 == JStr("regular")
  {
  }

  function PostIds(rows: seq<PostRow>): set<string> { set r | r in rows :: r.postId }

  function Urns(rows: seq<PostRow>): set<string> { set r | r in rows :: r.urn }

  /** One source post: an id is drawn, the JSON read, and the row inserted if the schema
      accepts it (urn and timestamp present, urn and id unused, JSON values storable). */
  function PostStep(m: Mig, p: SourcePost, env: Env): (r: Mig)
    ensures r.draws == m.draws + 1
  {
    var id := env.newId(PostPrefix, m.draws);
    var m1 := m.(draws := m.draws + 1);
    var f := PostFields(p.jsonData, env.parse);
    if f.Err? || p.urn.None? || p.postedAt.None? || !Bindable(f.value.0) || !Bindable(f.value.1)
       || id in PostIds(m.dest.posts) || p.urn.value in Urns(m.dest.posts)
    then m1.(posts := Failed(m.posts))
    else
      var row := PostRow(id, p.urn.value, p.fullUrn, "linkedin", p.postedAt.value, p.author, p.text,
                         f.value.0, f.value.1, p.jsonData, p.firstSeen, p.isRead, p.isMarked, env.now, env.now);
      m1.(dest := m.dest.(posts := m.dest.posts + [row]), posts := Migrated(m.posts))
  }

  function PostsFrom(m: Mig, ps: seq<SourcePost>, env: Env): Mig
    decreases |ps|
  {
    if ps == [] then m else PostStep(PostsFrom(m, ps[..|ps| - 1], env), ps[|ps| - 1], env)
  }

  /** `migrate_posts`: `total` is set to the number of source posts, then each is migrated. */
  function MigratePostsF(m: Mig, ps: seq<SourcePost>, env: Env): Mig
  {
    PostsFrom(m.(posts := m.posts.(total := |ps|)), ps, env)
  }

  // ---------------------------------------------------------------------
  // migrate_profiles and migrate_tags
  // ---------------------------------------------------------------------

  function ProfileIds(rows: seq<ProfileRow>): set<string> { set r | r in rows :: r.profileId }

  function Usernames(rows: seq<ProfileRow>): set<string> { set r | r in rows :: r.username }

  /** One source profile: the id is drawn and the old-to-new mapping recorded before the insert
      is tried. */
  function ProfileStep(m: Mig, p: SourceProfile, env: Env): (r: Mig)
    ensures r.draws == m.draws + 1
  {
    var id := env.newId(ProfilePrefix, m.draws);
    var m1 := m.(draws := m.draws + 1, profileMap := m.profileMap[p.id := id]);
    if p.username.None? || p.name.None? || id in ProfileIds(m.dest.profiles) || p.username.value in Usernames(m.dest.profiles)
    then m1.(profiles := Failed(m.profiles))
    else
      var row := ProfileRow(id, p.username.value, p.name.value, "linkedin", p.isActive, p.notes, p.postCount,
                            p.lastSynced, p.createdAt, p.updatedAt);
      m1.(dest := m.dest.(profiles := m.dest.profiles + [row]), profiles := Migrated(m.profiles))
  }

  function ProfilesFrom(m: Mig, ps: seq<SourceProfile>, env: Env): Mig
    decreases |ps|
  {
    if ps == [] then m else ProfileStep(ProfilesFrom(m, ps[..|ps| - 1], env), ps[|ps| - 1], env)
  }

  /** `migrate_profiles`: a missing table is skipped. */
  function MigrateProfilesF(m: Mig, ps: Option<seq<SourceProfile>>, env: Env): Mig
  {
    if ps.None? then m else ProfilesFrom(m.(profiles := m.profiles.(total := |ps.value|)), ps.value, env)
  }

  function TagIds(rows: seq<TagRow>): set<string> { set r | r in rows :: r.tagId }

  function TagNames(rows: seq<TagRow>): set<string> { set r | r in rows :: r.name }

  function TagStep(m: Mig, t: SourceTag, env: Env): (r: Mig)
    ensures r.draws == m.draws + 1
  {
    var id := env.newId(TagPrefix, m.draws);
    var m1 := m.(draws := m.draws + 1, tagMap := m.tagMap[t.id := id]);
    if t.name.None? || id in TagIds(m.dest.tags) || t.name.value in TagNames(m.dest.tags)
    then m1.(tags := Failed(m.tags))
    else
      var row := TagRow(id, t.name.value, None, t.color, t.createdAt);
      m1.(dest := m.dest.(tags := m.dest.tags + [row]), tags := Migrated(m.tags))
  }

  function TagsFrom(m: Mig, ts: seq<SourceTag>, env: Env): Mig
    decreases |ts|
  {
    if ts == [] then m else TagStep(TagsFrom(m, ts[..|ts| - 1], env), ts[|ts| - 1], env)
  }

  /** `migrate_tags`: a missing table is skipped. */
  function MigrateTagsF(m: Mig, ts: Option<seq<SourceTag>>, env: Env): Mig
  {
    if ts.None? then m else TagsFrom(m.(tags := m.tags.(total := |ts.value|)), ts.value, env)
  }

  // ---------------------------------------------------------------------
  // migrate_profile_tags
  // ---------------------------------------------------------------------

  /** `mapping.get(old)`, None for a NULL column. */
  function Lookup(mapping: map<int, string>, oldId: Option<int>): Option<string>
  {
    if oldId.Some? && oldId.value in mapping then Some(mapping[oldId.value]) else None
  }

  /** Both ids of the link map to a non-empty new id. */
  predicate Mapped(m: Mig, l: SourceLink)
  {
    var p := Lookup(m.profileMap, l.profileId);
    var t := Lookup(m.tagMap, l.tagId);
    p.Some? && p.value != "" && t.Some? && t.value != ""
  }

  function LinkIds(rows: seq<LinkRow>): set<string> { set r | r in rows :: r.linkId }

  predicate Linked(rows: seq<LinkRow>, p: string, t: string)
  {
    exists r :: r in rows && r.profileId == p && r.tagId == t
  }

  /** One source link: an id is drawn; an unmapped link is an error; otherwise the row with the
      mapped ids is inserted if the keys, the foreign keys and UNIQUE(profile_id, tag_id) hold. */
  function LinkStep(m: Mig, l: SourceLink, env: Env): (r: Mig)
    ensures r.draws == m.draws + 1
  {
    var id := env.newId(ProfileTagPrefix, m.draws);
    var m1 := m.(draws := m.draws + 1);
    if !Mapped(m, l) then m1.(links := Failed(m.links))
    else
      var p := Lookup(m.profileMap, l.profileId).value;
      var t := Lookup(m.tagMap, l.tagId).value;
      if id in LinkIds(m.dest.links) || p !in ProfileIds(m.dest.profiles) || t !in TagIds(m.dest.tags)
         || Linked(m.dest.links, p, t)
      then m1.(links := Failed(m.links))
      else m1.(dest := m.dest.(links := m.dest.links + [LinkRow(id, p, t, l.createdAt)]), links := Migrated(m.links))
  }

  function LinksFrom(m: Mig, ls: seq<SourceLink>, env: Env): Mig
    decreases |ls|
  {
    if ls == [] then m else LinkStep(LinksFrom(m, ls[..|ls| - 1], env), ls[|ls| - 1], env)
  }

  /** `migrate_profile_tags`: a missing table is skipped. */
  function MigrateLinksF(m: Mig, ls: Option<seq<SourceLink>>, env: Env): Mig
  {
    if ls.None? then m else LinksFrom(m.(links := m.links.(total := |ls.value|)), ls.value, env)
  }

  // ---------------------------------------------------------------------
  // validate_migration and run
  // ---------------------------------------------------------------------

  /** The profile_tags rows whose profile_id names no profile. */
  function OrphanProfiles(d: Dest): nat
  {
    |set r | r in d.links && r.profileId !in ProfileIds(d.profiles)|
  }

  function OrphanTags(d: Dest): nat
  {
    |set r | r in d.links && r.tagId !in TagIds(d.tags)|
  }

  /** `validate_migration`: the post count matches `migrated` and no reference is orphaned. */
  predicate Validates(m: Mig)
  {
    |m.dest.posts| == m.posts.migrated && OrphanProfiles(m.dest) == 0 && OrphanTags(m.dest) == 0
  }

  /** The migration's invariant: one destination post per migrated post, and every profile_tags
      row names an existing profile and tag. */
  ghost predicate Sound(m: Mig)
  {
    && |m.dest.posts| == m.posts.migrated
    && forall r :: r in m.dest.links ==> r.profileId in ProfileIds(m.dest.profiles) && r.tagId in TagIds(m.dest.tags)
  }

  /** `run`: the four steps in order, then the validation; a missing posts table makes the
      first query raise, which fails the run. */
  function RunF(src: Option<Source>, env: Env): Result<(Mig, bool)>
  {
    if src.None? then Err("no such table: posts")
    else
      var s := src.value;
      var m := MigrateLinksF(MigrateTagsF(MigrateProfilesF(MigratePostsF(Fresh, s.posts, env), s.profiles, env),
                                          s.tags, env), s.links, env);
      Ok((m, Validates(m)))
  }

  // ---------------------------------------------------------------------
  // Properties
  // ---------------------------------------------------------------------

  /** A sound state validates. */
  lemma SoundValidates(m: Mig)
    requires Sound(m)
    ensures Validates(m)
  {
    assert (set r | r in m.dest.links && r.profileId !in ProfileIds(m.dest.profiles)) == {};
    assert (set r | r in m.dest.links && r.tagId !in TagIds(m.dest.tags)) == {};
  }

  lemma PostStepSound(m: Mig, p: SourcePost, env: Env)
    requires Sound(m)
    ensures Sound(PostStep(m, p, env))
  {
  }

  lemma ProfileStepSound(m: Mig, p: SourceProfile, env: Env)
    requires Sound(m)
    ensures Sound(ProfileStep(m, p, env))
  {
    var r := ProfileStep(m, p, env);
    assert forall x :: x in m.dest.profiles ==> x in r.dest.profiles;
  }

  lemma TagStepSound(m: Mig, t: SourceTag, env: Env)
    requires Sound(m)
    ensures Sound(TagStep(m, t, env))
  {
    var r := TagStep(m, t, env);
    assert forall x :: x in m.dest.tags ==> x in r.dest.tags;
  }

  lemma LinkStepSound(m: Mig, l: SourceLink, env: Env)
    requires Sound(m)
    ensures Sound(LinkStep(m, l, env))
  {
  }

  lemma {:induction false} PostsSound(m: Mig, ps: seq<SourcePost>, env: Env)
    requires Sound(m)
    ensures Sound(PostsFrom(m, ps, env))
    decreases |ps|
  {
    if ps != [] {
      PostsSound(m, ps[..|ps| - 1], env);
      PostStepSound(PostsFrom(m, ps[..|ps| - 1], env), ps[|ps| - 1], env);
    }
  }

  lemma {:induction false} ProfilesSound(m: Mig, ps: seq<SourceProfile>, env: Env)
    requires Sound(m)
    ensures Sound(ProfilesFrom(m, ps, env))
    decreases |ps|
  {
    if ps != [] {
      ProfilesSound(m, ps[..|ps| - 1], env);
      ProfileStepSound(ProfilesFrom(m, ps[..|ps| - 1], env), ps[|ps| - 1], env);
    }
  }

  lemma {:induction false} TagsSound(m: Mig, ts: seq<SourceTag>, env: Env)
    requires Sound(m)
    ensures Sound(TagsFrom(m, ts, env))
    decreases |ts|
  {
    if ts != [] {
      TagsSound(m, ts[..|ts| - 1], env);
      TagStepSound(TagsFrom(m, ts[..|ts| - 1], env), ts[|ts| - 1], env);
    }
  }

  lemma {:induction false} LinksSound(m: Mig, ls: seq<SourceLink>, env: Env)
    requires Sound(m)
    ensures Sound(LinksFrom(m, ls, env))
    decreases |ls|
  {
    if ls != [] {
      LinksSound(m, ls[..|ls| - 1], env);
      LinkStepSound(LinksFrom(m, ls[..|ls| - 1], env), ls[|ls| - 1], env);
    }
  }

  /** Every step keeps the migration sound. */
  lemma StepsSound(m: Mig, s: Source, env: Env)
    requires Sound(m)
    ensures Sound(MigratePostsF(m, s.posts, env))
    ensures Sound(MigrateProfilesF(m, s.profiles, env))
    ensures Sound(MigrateTagsF(m, s.tags, env))
    ensures Sound(MigrateLinksF(m, s.links, env))
  {
    PostsSound(m.(posts := m.posts.(total := |s.posts|)), s.posts, env);
    if s.profiles.Some? {
      ProfilesSound(m.(profiles := m.profiles.(total := |s.profiles.value|)), s.profiles.value, env);
    }
    if s.tags.Some? {
      TagsSound(m.(tags := m.tags.(total := |s.tags.value|)), s.tags.value, env);
    }
    if s.links.Some? {
      LinksSound(m.(links := m.links.(total := |s.links.value|)), s.links.value, env);
    }
  }

  /** A run that reaches the validation always passes it: every migrated post is in the new
      posts table, and the foreign keys keep profile_tags free of orphans. */
  lemma RunValidates(src: Option<Source>, env: Env)
    ensures RunF(src, env).Ok? <==> src.Some?
    ensures RunF(src, env).Ok? ==> RunF(src, env).value.1
  {
    if src.Some? {
      var s := src.value;
      var m1 := MigratePostsF(Fresh, s.posts, env);
      StepsSound(Fresh, s, env);
      var m2 := MigrateProfilesF(m1, s.profiles, env);
      StepsSound(m1, s, env);
      var m3 := MigrateTagsF(m2, s.tags, env);
      StepsSound(m2, s, env);
      var m4 := MigrateLinksF(m3, s.links, env);
      StepsSound(m3, s, env);
      SoundValidates(m4);
    }
  }

  // ---------------------------------------------------------------------
  // Counters and mappings
  // ---------------------------------------------------------------------

  /** Each source post is migrated or counted as an error; nothing but the posts table, the
      post counters and the number of draws changes. */
  lemma {:induction false} PostsCount(m: Mig, ps: seq<SourcePost>, env: Env)
    ensures var r := PostsFrom(m, ps, env);
      && r.posts.migrated + r.posts.errors == m.posts.migrated + m.posts.errors + |ps|
      && r.posts.total == m.posts.total && r.draws == m.draws + |ps|
      && |r.dest.posts| == |m.dest.posts| + (r.posts.migrated - m.posts.migrated)
      && r.posts.migrated >= m.posts.migrated
      && r == m.(dest := m.dest.(posts := r.dest.posts), posts := r.posts, draws := r.draws)
    decreases |ps|
  {
    if ps != [] {
      PostsCount(m, ps[..|ps| - 1], env);
    }
  }

  lemma {:induction false} ProfilesCount(m: Mig, ps: seq<SourceProfile>, env: Env)
    ensures var r := ProfilesFrom(m, ps, env);
      && r.profiles.migrated + r.profiles.errors == m.profiles.migrated + m.profiles.errors + |ps|
      && r.profiles.total == m.profiles.total && r.draws == m.draws + |ps|
      && |r.dest.profiles| == |m.dest.profiles| + (r.profiles.migrated - m.profiles.migrated)
      && r.profiles.migrated >= m.profiles.migrated
      && r == m.(dest := m.dest.(profiles := r.dest.profiles), profiles := r.profiles, draws := r.draws,
                 profileMap := r.profileMap)
    decreases |ps|
  {
    if ps != [] {
      ProfilesCount(m, ps[..|ps| - 1], env);
    }
  }

  lemma {:induction false} TagsCount(m: Mig, ts: seq<SourceTag>, env: Env)
    ensures var r := TagsFrom(m, ts, env);
      && r.tags.migrated + r.tags.errors == m.tags.migrated + m.tags.errors + |ts|
      && r.tags.total == m.tags.total && r.draws == m.draws + |ts|
      && |r.dest.tags| == |m.dest.tags| + (r.tags.migrated - m.tags.migrated)
      && r.tags.migrated >= m.tags.migrated
      && r == m.(dest := m.dest.(tags := r.dest.tags), tags := r.tags, draws := r.draws, tagMap := r.tagMap)
    decreases |ts|
  {
    if ts != [] {
      TagsCount(m, ts[..|ts| - 1], env);
    }
  }

  /** The source links both of whose ids map. */
  function MappedCount(m: Mig, ls: seq<SourceLink>): (n: nat)
    ensures n <= |ls|
    decreases |ls|
  {
    if ls == [] then 0 else MappedCount(m, ls[..|ls| - 1]) + (if Mapped(m, ls[|ls| - 1]) then 1 else 0)
  }

  /** Each source link is migrated or counted as an error; only links both of whose ids map
      can be migrated, so every unmapped one is an error; each new row carries the mapped ids. */
  lemma {:induction false} LinksCount(m: Mig, ls: seq<SourceLink>, env: Env)
    ensures var r := LinksFrom(m, ls, env);
      && r.links.migrated + r.links.errors == m.links.migrated + m.links.errors + |ls|
      && r.links.total == m.links.total && r.draws == m.draws + |ls|
      && m.links.migrated <= r.links.migrated <= m.links.migrated + MappedCount(m, ls)
      && r.links.errors >= m.links.errors + (|ls| - MappedCount(m, ls))
      && m.dest.links <= r.dest.links
      && (forall j :: |m.dest.links| <= j < |r.dest.links| ==>
            r.dest.links[j].profileId in m.profileMap.Values && r.dest.links[j].tagId in m.tagMap.Values)
      && r == m.(dest := m.dest.(links := r.dest.links), links := r.links, draws := r.draws)
    decreases |ls|
  {
    if ls != [] {
      LinksCount(m, ls[..|ls| - 1], env);
      var r0 := LinksFrom(m, ls[..|ls| - 1], env);
      var l := ls[|ls| - 1];
      assert Mapped(r0, l) == Mapped(m, l);
      if Mapped(m, l) {
        var p := Lookup(m.profileMap, l.profileId).value;
        var t := Lookup(m.tagMap, l.tagId).value;
        assert p in m.profileMap.Values && t in m.tagMap.Values;
      }
    }
  }

  /** Every source profile's old id is mapped once its row has been tried, whether or not the
      insert then succeeded; the old ids mapped are exactly the earlier ones and these. */
  lemma {:induction false} ProfilesMapped(m: Mig, ps: seq<SourceProfile>, env: Env)
    ensures ProfilesFrom(m, ps, env).profileMap.Keys == m.profileMap.Keys + set p | p in ps :: p.id
    decreases |ps|
  {
    if ps != [] {
      ProfilesMapped(m, ps[..|ps| - 1], env);
      assert (set p | p in ps :: p.id) == (set p | p in ps[..|ps| - 1] :: p.id) + {ps[|ps| - 1].id} by {
        assert forall p :: p in ps ==> p in ps[..|ps| - 1] || p == ps[|ps| - 1];
      }
    }
  }

  /** The old id of the i-th source profile, when no later one shares it, maps to the id drawn
      for it. */
  lemma {:induction false} ProfileMappedTo(m: Mig, ps: seq<SourceProfile>, env: Env, i: nat)
    requires i < |ps| && forall j :: i < j < |ps| ==> ps[j].id != ps[i].id
    ensures var r := ProfilesFrom(m, ps, env);
      ps[i].id in r.profileMap && r.profileMap[ps[i].id] == env.newId(ProfilePrefix, m.draws + i)
    decreases |ps|
  {
    var init := ps[..|ps| - 1];
    ProfilesCount(m, init, env);
    if i < |ps| - 1 {
      assert init[i] == ps[i];
      ProfileMappedTo(m, init, env, i);
    }
  }

  lemma {:induction false} TagsMapped(m: Mig, ts: seq<SourceTag>, env: Env)
    ensures TagsFrom(m, ts, env).tagMap.Keys == m.tagMap.Keys + set t | t in ts :: t.id
    decreases |ts|
  {
    if ts != [] {
      TagsMapped(m, ts[..|ts| - 1], env);
      assert (set t | t in ts :: t.id) == (set t | t in ts[..|ts| - 1] :: t.id) + {ts[|ts| - 1].id} by {
        assert forall t :: t in ts ==> t in ts[..|ts| - 1] || t == ts[|ts| - 1];
      }
    }
  }

  /** For a fresh migration, every entity ends with `migrated + errors == total`; a missing
      table leaves its counters at zero. */
  lemma RunCounts(s: Source, env: Env)
    ensures var m1 := MigratePostsF(Fresh, s.posts, env);
      var m2 := MigrateProfilesF(m1, s.profiles, env);
      var m3 := MigrateTagsF(m2, s.tags, env);
      var m4 := MigrateLinksF(m3, s.links, env);
      && m4.posts.migrated + m4.posts.errors == m4.posts.total == |s.posts|
      && m4.profiles.migrated + m4.profiles.errors == m4.profiles.total
      && m4.tags.migrated + m4.tags.errors == m4.tags.total
      && m4.links.migrated + m4.links.errors == m4.links.total
      && (s.profiles.None? ==> m4.profiles == Zero) && (s.profiles.Some? ==> m4.profiles.total == |s.profiles.value|)
      && (s.tags.None? ==> m4.tags == Zero) && (s.tags.Some? ==> m4.tags.total == |s.tags.value|)
      && (s.links.None? ==> m4.links == Zero) && (s.links.Some? ==> m4.links.total == |s.links.value|)
  {
    var m1 := MigratePostsF(Fresh, s.posts, env);
    PostsCount(Fresh.(posts := Zero.(total := |s.posts|)), s.posts, env);
    var m2 := MigrateProfilesF(m1, s.profiles, env);
    if s.profiles.Some? {
      ProfilesCount(m1.(profiles := m1.profiles.(total := |s.profiles.value|)), s.profiles.value, env);
    }
    var m3 := MigrateTagsF(m2, s.tags, env);
    if s.tags.Some? {
      TagsCount(m2.(tags := m2.tags.(total := |s.tags.value|)), s.tags.value, env);
    }
    if s.links.Some? {
      LinksCount(m3.(links := m3.links.(total := |s.links.value|)), s.links.value, env);
    }
  }

  // ---------------------------------------------------------------------
  // The migration object
  // ---------------------------------------------------------------------

  /** `DatabaseMigration`: the counters and id mappings it updates in place, with the
      destination database it writes. */
  class DatabaseMigration {
    var dest: Dest
    var draws: nat
    var posts: Tally
    var profiles: Tally
    var tags: Tally
    var links: Tally
    var profileMap: map<int, string>
    var tagMap: map<int, string>

    function State(): Mig
      reads this
    {
      Mig(dest, draws, posts, profiles, tags, links, profileMap, tagMap)
    }

    /** All counters zero, both mappings empty, nothing written yet. */
    constructor ()
      ensures State() == Fresh
    {
      dest := Dest([], [], [], []);
      draws := 0;
      posts, profiles, tags, links := Zero, Zero, Zero, Zero;
      profileMap, tagMap := map[], map[];
    }

    /** One iteration of the `migrate_posts` loop. */
    method MigratePost(p: SourcePost, env: Env)
      modifies this
      ensures State() == PostStep(old(State()), p, env)
    {
      var id := env.newId(PostPrefix, draws);
      draws := draws + 1;
      var f := PostFields(p.jsonData, env.parse);
      if f.Err? || p.urn.None? || p.postedAt.None? || !Bindable(f.value.0) || !Bindable(f.value.1)
         || id in PostIds(dest.posts) || p.urn.value in Urns(dest.posts)
      {
        posts := Failed(posts);
      } else {
        var row := PostRow(id, p.urn.value, p.fullUrn, "linkedin", p.postedAt.value, p.author, p.text,
                           f.value.0, f.value.1, p.jsonData, p.firstSeen, p.isRead, p.isMarked, env.now, env.now);
        dest := dest.(posts := dest.posts + [row]);
        posts := Migrated(posts);
      }
    }

    method MigratePosts(ps: seq<SourcePost>, env: Env)
      modifies this
      ensures State() == MigratePostsF(old(State()), ps, env)
    {
      posts := posts.(total := |ps|);
      ghost var start := State();
      var i := 0;
      while i < |ps|
        invariant i <= |ps|
        invariant State() == PostsFrom(start, ps[..i], env)
      {
        assert ps[..i + 1][..i] == ps[..i];
        MigratePost(ps[i], env);
        i := i + 1;
      }
      assert ps[..i] == ps;
    }

    /** One iteration of the `migrate_profiles` loop. */
    method MigrateProfile(p: SourceProfile, env: Env)
      modifies this
      ensures State() == ProfileStep(old(State()), p, env)
    {
      var id := env.newId(ProfilePrefix, draws);
      draws := draws + 1;
      profileMap := profileMap[p.id := id];
      if p.username.None? || p.name.None? || id in ProfileIds(dest.profiles) || p.username.value in Usernames(dest.profiles) {
        profiles := Failed(profiles);
      } else {
        var row := ProfileRow(id, p.username.value, p.name.value, "linkedin", p.isActive, p.notes, p.postCount,
                              p.lastSynced, p.createdAt, p.updatedAt);
        dest := dest.(profiles := dest.profiles + [row]);
        profiles := Migrated(profiles);
      }
    }

    /** None: the source has no profiles table, and nothing changes. */
    method MigrateProfiles(ps: Option<seq<SourceProfile>>, env: Env)
      modifies this
      ensures State() == MigrateProfilesF(old(State()), ps, env)
    {
      if ps.None? {
        return;
      }
      var rows := ps.value;
      profiles := profiles.(total := |rows|);
      ghost var start := State();
      var i := 0;
      while i < |rows|
        invariant i <= |rows|
        invariant State() == ProfilesFrom(start, rows[..i], env)
      {
        assert rows[..i + 1][..i] == rows[..i];
        MigrateProfile(rows[i], env);
        i := i + 1;
      }
      assert rows[..i] == rows;
    }

    /** One iteration of the `migrate_tags` loop. */
    method MigrateTag(t: SourceTag, env: Env)
      modifies this
      ensures State() == TagStep(old(State()), t, env)
    {
      var id := env.newId(TagPrefix, draws);
      draws := draws + 1;
      tagMap := tagMap[t.id := id];
      if t.name.None? || id in TagIds(dest.tags) || t.name.value in TagNames(dest.tags) {
        tags := Failed(tags);
      } else {
        dest := dest.(tags := dest.tags + [TagRow(id, t.name.value, None, t.color, t.createdAt)]);
        tags := Migrated(tags);
      }
    }

    method MigrateTags(ts: Option<seq<SourceTag>>, env: Env)
      modifies this
      ensures State() == MigrateTagsF(old(State()), ts, env)
    {
      if ts.None? {
        return;
      }
      var rows := ts.value;
      tags := tags.(total := |rows|);
      ghost var start := State();
      var i := 0;
      while i < |rows|
        invariant i <= |rows|
        invariant State() == TagsFrom(start, rows[..i], env)
      {
        assert rows[..i + 1][..i] == rows[..i];
        MigrateTag(rows[i], env);
        i := i + 1;
      }
      assert rows[..i] == rows;
    }

    /** One iteration of the `migrate_profile_tags` loop. */
    method MigrateProfileTag(l: SourceLink, env: Env)
      modifies this
      ensures State() == LinkStep(old(State()), l, env)
    {
      var id := env.newId(ProfileTagPrefix, draws);
      draws := draws + 1;
      var p := Lookup(profileMap, l.profileId);
      var t := Lookup(tagMap, l.tagId);
      if p.None? || p.value == "" || t.None? || t.value == "" {
        links := Failed(links);
        return;
      }
      if id in LinkIds(dest.links) || p.value !in ProfileIds(dest.profiles) || t.value !in TagIds(dest.tags)
         || Linked(dest.links, p.value, t.value)
      {
        links := Failed(links);
      } else {
        dest := dest.(links := dest.links + [LinkRow(id, p.value, t.value, l.createdAt)]);
        links := Migrated(links);
      }
    }

    method MigrateProfileTags(ls: Option<seq<SourceLink>>, env: Env)
      modifies this
      ensures State() == MigrateLinksF(old(State()), ls, env)
    {
      if ls.None? {
        return;
      }
      var rows := ls.value;
      links := links.(total := |rows|);
      ghost var start := State();
      var i := 0;
      while i < |rows|
        invariant i <= |rows|
        invariant State() == LinksFrom(start, rows[..i], env)
      {
        assert rows[..i + 1][..i] == rows[..i];
        MigrateProfileTag(rows[i], env);
        i := i + 1;
      }
      assert rows[..i] == rows;
    }

    /** `validate_migration`: true exactly when the posts count matches and no profile_tags row
      is orphaned, which always holds of a sound state. */
    method ValidateMigration() returns (ok: bool)
      ensures ok == Validates(State())
      ensures Sound(State()) ==> ok
    {
      ok := true;
      if |dest.posts| != posts.migrated {
        ok := false;
      }
      if OrphanProfiles(dest) > 0 {
        ok := false;
      }
      if OrphanTags(dest) > 0 {
        ok := false;
      }
      if Sound(State()) {
        SoundValidates(State());
      }
    }

    /** `run`: the four steps and the validation; Err when the source has no posts table (the
      first query raises and the run exits). From a fresh object it is `RunF`. */
    method Run(src: Option<Source>, env: Env) returns (r: Result<bool>)
      modifies this
      ensures src.None? ==> r.Err?
      ensures src.Some? ==> r.Ok? && r.value == Validates(State())
      ensures src.Some? && old(Sound(State())) ==> r == Ok(true)
      ensures old(State()) == Fresh && src.Some? ==> RunF(src, env) == Ok((State(), r.value))
    {
      if src.None? {
        return Err("no such table: posts");
      }
      var s := src.value;
      ghost var m0 := State();
      MigratePosts(s.posts, env);
      ghost var m1 := State();
      MigrateProfiles(s.profiles, env);
      ghost var m2 := State();
      MigrateTags(s.tags, env);
      ghost var m3 := State();
      MigrateProfileTags(s.links, env);
      if Sound(m0) {
        StepsSound(m0, s, env);
        StepsSound(m1, s, env);
        StepsSound(m2, s, env);
        StepsSound(m3, s, env);
      }
      var ok := ValidateMigration();
      r := Ok(ok);
    }
  }
}
