// The profile screens (profile_ui.py): reading a LinkedIn username out of a profile URL, and the
// state of the add, edit, tag, create-tag, manage-tags and filter-by-tag dialogs.

module ProfileUi {
  import opened Common

  // ---------------------------------------------------------------------
  // AddProfileModal.extract_username_from_linkedin_url
  // ---------------------------------------------------------------------

  const Marker: string := "linkedin.com/in/"

  /** The pattern's literal part `linkedin\.com/in/` matches at `i`, ignoring case. */
  predicate MarkerAt(s: string, i: nat)
  {
    i + |Marker| <= |s| && Lower(s[i..i + |Marker|]) == Marker
  }

  /** A character the group `[^/?]` takes. */
  predicate InName(c: char)
  {
    c != '/' && c != '?'
  }

  /** `name` is the longest run of name characters right after a literal match at `i`. */
  predicate NameAt(s: string, i: nat, name: string)
  {
    MarkerAt(s, i)
    && i + |Marker| + |name| <= |s| && s[i + |Marker|..i + |Marker| + |name|] == name
    && (i + |Marker| + |name| == |s| || !InName(s[i + |Marker| + |name|]))
  }

  /** `re.search(r'linkedin\.com/in/([^/?]+)', s, re.IGNORECASE)` from position `from` on: the
      first position where the literal matches and at least one name character follows gives
      the longest run of name characters after it. */
  function SearchUsername(s: string, from: nat): (r: Option<string>)
    ensures r.Some? ==> r.value != [] && (forall c :: c in r.value ==> InName(c))
    ensures r.Some? ==> exists i :: from <= i && NameAt(s, i, r.value)
    ensures r.None? ==> forall i :: from <= i && MarkerAt(s, i) && i + |Marker| < |s| ==> !InName(s[i + |Marker|])
    decreases |s| - from
  {
    if from + |Marker| >= |s| then None
    else if MarkerAt(s, from) && InName(s[from + |Marker|]) then
      var start := from + |Marker|;
      var n := IndexOfAny(s[start..], {'/', '?'});
      var name := s[start..start + n];
      assert NameAt(s, from, name) && name != [] && (forall c :: c in name ==> InName(c)) by {
        NameRunFacts(s, start, n);
      }
      Some(name)
    else SearchUsername(s, from + 1)
  }

  /** The run `IndexOfAny` measures from `start` holds only name characters and ends the text
      or stops at one that is not. */
  lemma NameRunFacts(s: string, start: nat, n: nat)
    requires start < |s| && InName(s[start]) && n == IndexOfAny(s[start..], {'/', '?'})
    ensures start + n <= |s| && n > 0
    ensures forall c :: c in s[start..start + n] ==> InName(c)
    ensures start + n == |s| || !InName(s[start + n])
  {
    var rest := s[start..];
    assert rest[0] == s[start];
    forall c | c in s[start..start + n] ensures InName(c) {
      var k :| 0 <= k < n && s[start..start + n][k] == c;
      assert rest[k] == c;
    }
    if start + n < |s| {
      assert rest[n] == s[start + n];
    }
  }

  /** `extract_username_from_linkedin_url`: the name from a LinkedIn profile URL; any other
      input, stripped, is taken to be the username itself. */
  function ExtractUsername(input: string): string
  {
    var s := Strip(input);
    if Contains(Lower(s), Marker) then
      match SearchUsername(s, 0)
      case Some(name) => name
      case None => s
    else s
  }

  /** The result is the stripped input, or a non-empty name with no `/` or `?` that follows the
      first matching `linkedin.com/in/` of the input. */
  lemma ExtractUsernameShape(input: string)
    ensures var r := ExtractUsername(input);
      || r == Strip(input)
      || (r != [] && (forall c :: c in r ==> InName(c)) && SearchUsername(Strip(input), 0) == Some(r))
  {
  }

  const ProfileUrlPrefix: string := "https://www.linkedin.com/in/"

  /** The profile URL of a username gives that username back. */
  lemma UsernameRoundTrip(name: string)
    requires name != [] && forall c :: c in name ==> InName(c)
    ensures ExtractUsername(ProfileUrlPrefix + name + "/") == name
  {
    var url := ProfileUrlPrefix + name + "/";
    StripUrl(url);
    MarkerInUrl(name);
    NoEarlierMarker(name);
    SkipToMarker(url, 0, 12);
    NameRun(name);
  }

  lemma MarkerInUrl(name: string)
    requires name != [] && forall c :: c in name ==> InName(c)
    ensures var url := ProfileUrlPrefix + name + "/";
      MarkerAt(url, 12) && Contains(Lower(url), Marker) && 28 < |url| && InName(url[28])
  {
    var url := ProfileUrlPrefix + name + "/";
    assert url[..28] == ProfileUrlPrefix;
    MarkerAfterPrefix(url);
    assert url[28] == name[0] && name[0] in name;
  }

  /** Any text that starts with the profile URL prefix has the literal at position 12. */
  lemma MarkerAfterPrefix(url: string)
    requires 28 <= |url| && url[..28] == ProfileUrlPrefix
    ensures MarkerAt(url, 12) && Contains(Lower(url), Marker)
  {
    PrefixMarker(url);
    MarkerAtLiteral(url, 12);
    LowerSlice(url, 12, 28);
    ContainsAt(Lower(url), Marker, 12);
  }

  /** The literal itself, in lower case, matches. */
  lemma MarkerAtLiteral(s: string, i: nat)
    requires i + |Marker| <= |s| && s[i..i + |Marker|] == Marker
    ensures MarkerAt(s, i)
  {
    LowerMarker();
  }

  lemma LowerMarker()
    ensures Lower(Marker) == Marker
  {
    LowerKeeps(Marker);
  }

  lemma PrefixMarker(url: string)
    requires 28 <= |url| && url[..28] == ProfileUrlPrefix
    ensures url[12..28] == Marker
  {
    assert url[12..28] == url[..28][12..28];
  }

  lemma NoEarlierMarker(name: string)
    ensures forall i :: 0 <= i < 12 ==> !MarkerAt(ProfileUrlPrefix + name + "/", i)
  {
    var url := ProfileUrlPrefix + name + "/";
    forall i | 0 <= i < 12 ensures !MarkerAt(url, i) {
      assert url[i] == ProfileUrlPrefix[i];
      assert ProfileUrlPrefix[i] != 'l' && ProfileUrlPrefix[i] != 'L';
      if i + |Marker| <= |url| {
        assert Lower(url[i..i + |Marker|])[0] == LowerChar(url[i]);
      }
    }
  }

  lemma NameRun(name: string)
    requires name != [] && forall c :: c in name ==> InName(c)
    ensures var url := ProfileUrlPrefix + name + "/";
      var n := IndexOfAny(url[28..], {'/', '?'});
      n == |name| && url[28..28 + n] == name
  {
    var url := ProfileUrlPrefix + name + "/";
    var rest := url[28..];
    assert rest == name + "/";
    forall k | 0 <= k < |name| ensures rest[k] !in {'/', '?'} {
      assert rest[k] == name[k] && name[k] in name;
    }
    IndexOfAnyIs(rest, {'/', '?'}, |name|);
  }

  lemma StripUrl(url: string)
    requires url != [] && url[0] == 'h' && url[|url| - 1] == '/'
    ensures Strip(url) == url
  {
    assert TrimStart(url) == url;
  }

  lemma {:induction false} SkipToMarker(s: string, from: nat, at: nat)
    requires from <= at && at + |Marker| < |s| && MarkerAt(s, at) && InName(s[at + |Marker|])
    requires forall i :: from <= i < at ==> !MarkerAt(s, i)
    ensures SearchUsername(s, from) == SearchUsername(s, at)
    decreases at - from
  {
    if from < at {
      SkipToMarker(s, from + 1, at);
    }
  }

  lemma IndexOfAnyIs(s: string, cs: set<char>, i: nat)
    requires i < |s| && s[i] in cs && forall k :: 0 <= k < i ==> s[k] !in cs
    ensures IndexOfAny(s, cs) == i
  {
  }

  lemma ContainsAt(s: string, pat: string, i: nat)
    requires i + |pat| <= |s| && s[i..i + |pat|] == pat
    ensures Contains(s, pat)
  {
    assert OccursAt(s, pat, i);
    ContainsIffOccurs(s, pat);
  }

  // ---------------------------------------------------------------------
  // AddProfileModal, EditProfileModal
  // ---------------------------------------------------------------------

  datatype NewProfile = NewProfile(username: string, name: string, notes: string)

  /** The Add button: nothing when the username field or the name is blank after stripping;
      otherwise the stripped fields, with the username read out of a profile URL. */
  function AddProfile(usernameField: string, nameField: string, notesField: string): (r: Option<NewProfile>)
    ensures r.Some? <==> Strip(usernameField) != [] && Strip(nameField) != []
    ensures r.Some? ==>
      (r.value.name == Strip(nameField) && r.value.notes == Strip(notesField)
       && r.value.username == ExtractUsername(Strip(usernameField)))
  {
    var usernameOrUrl := Strip(usernameField);
    var name := Strip(nameField);
    if usernameOrUrl == [] || name == [] then None
    else Some(NewProfile(ExtractUsername(usernameOrUrl), name, Strip(notesField)))
  }

  /** The stripped username never changes by the second strip inside the extraction. */
  lemma AddProfileUsername(usernameField: string, nameField: string, notesField: string)
    requires AddProfile(usernameField, nameField, notesField).Some?
    ensures AddProfile(usernameField, nameField, notesField).value.username == ExtractUsername(usernameField)
  {
    StripIdempotent(usernameField);
  }

  datatype ProfileEdit = ProfileEdit(name: string, notes: string, isActive: Json)

  /** The edit dialog: the profile's `is_active` flag as the dialog holds it. */
  class EditProfileModal {
    var isActive: Json

    constructor(isActive: Json)
      ensures this.isActive == isActive
    {
      this.isActive := isActive;
    }

    /** The `a` key: `0 if is_active else 1`. */
    method ToggleActive()
      modifies this
      ensures isActive == (if Truthy(old(isActive)) then JInt(0) else JInt(1))
      ensures Truthy(isActive) <==> !Truthy(old(isActive))
    {
      isActive := if Truthy(isActive) then JInt(0) else JInt(1);
    }

    /** The Save button: nothing when the stripped name is blank. */
    function Save(nameField: string, notesField: string): (r: Option<ProfileEdit>)
      reads this
      ensures r.Some? <==> Strip(nameField) != []
      ensures r.Some? ==> r.value == ProfileEdit(Strip(nameField), Strip(notesField), isActive)
    {
      if Strip(nameField) == [] then None else Some(ProfileEdit(Strip(nameField), Strip(notesField), isActive))
    }
  }

  // ---------------------------------------------------------------------
  // Digit keys, toggling
  // ---------------------------------------------------------------------

  /** The list slot a digit key selects: `int(key) - 1` when that is a position of a list of
      `n` entries. */
  function DigitSlot(key: char, n: nat): (r: Option<nat>)
    ensures r.Some? <==> '1' <= key <= '9' && (key as int - '1' as int) < n
    ensures r.Some? ==> r.value == key as int - '1' as int && r.value < n
  {
    if '0' <= key <= '9' && 0 <= key as int - '0' as int - 1 < n then Some(key as int - '0' as int - 1) else None
  }

  /** Adds `x` when it is absent, removes it when present. */
  function Toggle<T(!new)>(s: set<T>, x: T): (r: set<T>)
    ensures x in r <==> x !in s
    ensures forall y :: y != x ==> (y in r <==> y in s)
  {
    if x in s then s - {x} else s + {x}
  }

  lemma ToggleTwice<T(!new)>(s: set<T>, x: T)
    ensures Toggle(Toggle(s, x), x) == s
  {
  }

  // ---------------------------------------------------------------------
  // TagProfileModal
  // ---------------------------------------------------------------------

  datatype Tag = Tag(tagId: nat, name: string, color: string)

  /** The tag dialog: the tags on offer and the ids selected for the profile. */
  class TagProfileModal {
    var allTags: seq<Tag>
    var selected: set<nat>

    /** Opens with the profile's current tags selected. */
    constructor(allTags: seq<Tag>, profileTags: seq<Tag>)
      ensures this.allTags == allTags
      ensures forall id :: id in selected <==> exists t :: t in profileTags && t.tagId == id
    {
      this.allTags := allTags;
      selected := set t | t in profileTags :: t.tagId;
    }

    /** A digit key toggles the tag it numbers; any other key, or a number past the list,
        changes nothing. */
    method OnKey(key: char)
      modifies this
      ensures allTags == old(allTags)
      ensures DigitSlot(key, |allTags|).Some? ==> selected == Toggle(old(selected), allTags[DigitSlot(key, |allTags|).value].tagId)
      ensures DigitSlot(key, |allTags|).None? ==> selected == old(selected)
    {
      var slot := DigitSlot(key, |allTags|);
      if slot.Some? {
        selected := Toggle(selected, allTags[slot.value].tagId);
      }
    }

    /** After a tag was created: the refreshed list, with the selection kept. */
    method Refresh(tags: seq<Tag>)
      modifies this
      ensures allTags == tags && selected == old(selected)
    {
      allTags := tags;
    }

    /** The Save button hands back the selected ids. */
    function Save(): (r: set<nat>)
      reads this
      ensures r == selected
    {
      selected
    }
  }

  // ---------------------------------------------------------------------
  // CreateTagModal
  // ---------------------------------------------------------------------

  const Colors: seq<string> := ["cyan", "magenta", "green", "yellow", "blue", "red", "white"]

  /** The `c` key: the next colour, wrapping round after the last. */
  function NextColor(i: nat): (r: nat)
    ensures r < |Colors|
    ensures i < |Colors| - 1 ==> r == i + 1
    ensures i == |Colors| - 1 ==> r == 0
  {
    (i + 1) % |Colors|
  }

  /** Pressing `c` once per colour comes back to where it started, through every colour. */
  lemma {:induction false} ColorCycle(i: nat, k: nat)
    requires i < |Colors|
    ensures CycleBy(i, k) == (i + k) % |Colors|
    decreases k
  {
    if k > 0 {
      ColorCycle(i, k - 1);
      assert |Colors| == 7;
      ModSucc(i + k - 1);
    }
  }

  /** Adding one after reducing modulo the number of colours is adding one before. */
  lemma ModSucc(a: nat)
    ensures (a % 7 + 1) % 7 == (a + 1) % 7
  {
  }

  function CycleBy(i: nat, k: nat): nat
    decreases k
  {
    if k == 0 then i else NextColor(CycleBy(i, k - 1))
  }

  /** The tag name the Create button submits: stripped, then lower-cased. */
  function TagNameOf(field: string): (r: string)
    ensures |r| == |Strip(field)|
    ensures Lower(r) == r
  {
    LowerIdempotent(Strip(field));
    Lower(Strip(field))
  }

  /** The create-tag dialog: the selected colour. */
  class CreateTagModal {
    var colorIdx: nat

    ghost predicate Valid()
      reads this
    {
      colorIdx < |Colors|
    }

    constructor()
      ensures Valid() && colorIdx == 0
    {
      colorIdx := 0;
    }

    method CycleColor()
      requires Valid()
      modifies this
      ensures Valid() && colorIdx == NextColor(old(colorIdx))
    {
      colorIdx := NextColor(colorIdx);
    }

    /** The Create button: a blank name keeps the dialog open, as does a failed insert;
        otherwise the new tag, with the selected colour, closes it. */
    function Create(field: string, addTag: Result<nat>): (r: Option<Tag>)
      requires Valid()
      reads this
      ensures r.Some? <==> TagNameOf(field) != [] && addTag.Ok?
      ensures r.Some? ==> r.value == Tag(addTag.value, TagNameOf(field), Colors[colorIdx])
    {
      var name := TagNameOf(field);
      if name == [] || addTag.Err? then None else Some(Tag(addTag.value, name, Colors[colorIdx]))
    }
  }

  // ---------------------------------------------------------------------
  // ManageTagsModal
  // ---------------------------------------------------------------------

  datatype TagUsage = TagUsage(tagId: nat, name: string, color: string, usageCount: nat)

  /** The selection after a delete: kept when still a position of the new list, otherwise the
      last position (0 for an empty list). */
  function ClampSelection(sel: nat, n: nat): (r: nat)
    ensures n == 0 ==> r == 0
    ensures n > 0 ==> r < n
    ensures sel < n ==> r == sel
    ensures sel >= n && n > 0 ==> r == n - 1
  {
    if sel >= n then (if n == 0 then 0 else n - 1) else sel
  }

  /** The manage-tags dialog: the tags with their usage counts and the selected position. */
  class ManageTagsModal {
    var tags: seq<TagUsage>
    var selectedIdx: nat
    var deleted: seq<nat>

    constructor(tags: seq<TagUsage>)
      ensures this.tags == tags && selectedIdx == 0 && deleted == []
    {
      this.tags := tags;
      selectedIdx := 0;
      deleted := [];
    }

    /** A digit key selects the tag it numbers, when there is one. */
    method OnKey(key: char)
      modifies this
      ensures tags == old(tags) && deleted == old(deleted)
      ensures DigitSlot(key, |tags|).Some? ==> selectedIdx == DigitSlot(key, |tags|).value
      ensures DigitSlot(key, |tags|).None? ==> selectedIdx == old(selectedIdx)
    {
      var slot := DigitSlot(key, |tags|);
      if slot.Some? {
        selectedIdx := slot.value;
      }
    }

    /** The `d` key: deletes the selected tag (when the selection is a position of the list)
        and reloads the list (`after`), moving the selection back into range. */
    method DeleteTag(after: seq<TagUsage>)
      modifies this
      ensures old(selectedIdx) < |old(tags)| ==>
        && deleted == old(deleted) + [old(tags)[old(selectedIdx)].tagId]
        && tags == after && selectedIdx == ClampSelection(old(selectedIdx), |after|)
        && (after == [] ==> selectedIdx == 0) && (after != [] ==> selectedIdx < |after|)
      ensures old(selectedIdx) >= |old(tags)| ==> tags == old(tags) && selectedIdx == old(selectedIdx) && deleted == old(deleted)
    {
      if tags == [] {
        return;
      }
      if selectedIdx < |tags| {
        deleted := deleted + [tags[selectedIdx].tagId];
        tags := after;
        selectedIdx := ClampSelection(selectedIdx, |tags|);
      }
    }
  }

  // ---------------------------------------------------------------------
  // FilterByTagModal
  // ---------------------------------------------------------------------

  datatype TagFilter = TagFilter(tagNames: set<string>, matchAll: bool)

  datatype Button = Apply | Clear | Cancel

  /** The filter dialog: the tags on offer, the selected names and the match mode. */
  class FilterByTagModal {
    var allTags: seq<Tag>
    var selectedNames: set<string>
    var matchAll: bool

    /** Opens with the current filter selected, in match-any mode. */
    constructor(allTags: seq<Tag>, currentFilters: seq<string>)
      ensures this.allTags == allTags && !matchAll
      ensures forall n :: n in selectedNames <==> n in currentFilters
    {
      this.allTags := allTags;
      selectedNames := set n | n in currentFilters;
      matchAll := false;
    }

    method OnKey(key: char)
      modifies this
      ensures allTags == old(allTags) && matchAll == old(matchAll)
      ensures DigitSlot(key, |allTags|).Some? ==>
        selectedNames == Toggle(old(selectedNames), allTags[DigitSlot(key, |allTags|).value].name)
      ensures DigitSlot(key, |allTags|).None? ==> selectedNames == old(selectedNames)
    {
      var slot := DigitSlot(key, |allTags|);
      if slot.Some? {
        selectedNames := Toggle(selectedNames, allTags[slot.value].name);
      }
    }

    /** The `m` key: switches between match-all and match-any. */
    method ToggleMatchMode()
      modifies this
      ensures matchAll == !old(matchAll) && selectedNames == old(selectedNames) && allTags == old(allTags)
    {
      matchAll := !matchAll;
    }

    /** What the dialog closes with: the selection, no filter at all, or nothing. */
    function Dismiss(button: Button): (r: Option<TagFilter>)
      reads this
      ensures button == Clear ==> r == Some(TagFilter({}, false))
      ensures button == Apply ==> r == Some(TagFilter(selectedNames, matchAll))
      ensures button == Cancel ==> r == None
    {
      match button
      case Apply => Some(TagFilter(selectedNames, matchAll))
      case Clear => Some(TagFilter({}, false))
      case Cancel => None
    }
  }
}
