/**
 * Users::Profile: group membership, the superuser flag, the anonymous
 * sentinel, the resource identifier, the default groups a profile gets when
 * it is created, and the replacement of unsaved groups by stored ones.
 */
module Profiles {
  import opened Wrappers
  import RubyText

  /** A Users::Group record: its key `group`, its name, description, and whether it is saved. */
  datatype Group = Group(group: string, name: Option<string>, description: Option<string>, saved: bool)

  /** The stored groups, by key: what `Group.get(name)` finds. */
  type GroupStore = map<string, Group>

  /** A store as the database keeps it: every record is saved under its own key. */
  ghost predicate StoreIsConsistent(store: GroupStore)
  {
    forall n :: n in store ==> store[n].group == n && store[n].saved
  }

  /**
   * The argument of `belongs_to?`: an Array of names, a single name, or any
   * other object such as a Group record (which equals no name).
   */
  datatype Membership = AnyOf(names: seq<string>) | One(name: string) | Record(g: Group)

  /** The default group when the configuration variable is unset. */
  const FallbackDefaultGroup: string := "user"
  const AnonymousName: string := "anonymous"
  const ResourcePrefix: string := "profile_"

  /** The keys of a list of groups, in order. */
  function GroupNamesOf(gs: seq<Group>): (r: seq<string>)
    ensures |r| == |gs|
    ensures forall k :: 0 <= k < |gs| ==> r[k] == gs[k].group
  {
    seq(|gs|, k requires 0 <= k < |gs| => gs[k].group)
  }

  /**
   * Ruby's `a & b`: the elements of `a` that are also in `b`, each once, in
   * the order of their first occurrence in `a`.
   */
  function Intersection(a: seq<string>, b: seq<string>): (r: seq<string>)
    ensures forall x :: x in r <==> x in a && x in b
    ensures forall i, j :: 0 <= i < j < |r| ==> r[i] != r[j]
    decreases |a|
  {
    if a == [] then []
    else
      var rest := Intersection(a[..|a| - 1], b);
      var x := a[|a| - 1];
      assert forall y :: y in a <==> y in a[..|a| - 1] || y == x;
      if x in b && x !in rest then rest + [x] else rest
  }

  /**
   * `belongs_to?` over the profile's group keys: an Array shares some name
   * with them, a single name is one of them; any other object matches nothing.
   */
  predicate BelongsToNames(groupNames: seq<string>, q: Membership)
    ensures q.AnyOf? ==> (BelongsToNames(groupNames, q) <==> exists n :: n in q.names && n in groupNames)
    ensures q.One? ==> (BelongsToNames(groupNames, q) <==> exists k :: 0 <= k < |groupNames| && groupNames[k] == q.name)
    ensures q.Record? || q == AnyOf([]) || groupNames == [] ==> !BelongsToNames(groupNames, q)
  {
    match q
    case AnyOf(names) =>
      var common := Intersection(names, groupNames);
      assert (exists n :: n in names && n in groupNames) ==> exists n :: n in common;
      assert common != [] ==> common[0] in names && common[0] in groupNames;
      common != []
    case One(name) => name in groupNames
    case Record(_) => false
  }

  /** The stored groups named in `names`, in the order of the names; unknown names are skipped. */
  function DefaultGroups(store: GroupStore, names: seq<string>): (r: seq<Group>)
    ensures |r| <= |names|
    ensures forall g :: g in r <==> exists n :: n in names && n in store && store[n] == g
    decreases |names|
  {
    if names == [] then []
    else
      var last := names[|names| - 1];
      assert forall n :: n in names <==> n in names[..|names| - 1] || n == last;
      DefaultGroups(store, names[..|names| - 1]) + (if last in store then [store[last]] else [])
  }

  /** The group `check_usergroups!` keeps in place of `g`. */
  function Refreshed(store: GroupStore, g: Group): Group
  {
    if !g.saved && g.group in store then store[g.group] else g
  }

  /** `Refreshed` applied to every group of a list. */
  function RefreshedAll(store: GroupStore, gs: seq<Group>): (r: seq<Group>)
    ensures |r| == |gs|
  {
    seq(|gs|, k requires 0 <= k < |gs| => Refreshed(store, gs[k]))
  }

  /** When every default name is stored, the new profile gets exactly those groups, in order. */
  lemma {:induction false} DefaultGroupsAllKnown(store: GroupStore, names: seq<string>)
    requires StoreIsConsistent(store)
    requires forall k :: 0 <= k < |names| ==> names[k] in store
    ensures GroupNamesOf(DefaultGroups(store, names)) == names
    decreases |names|
  {
    if names != [] {
      var init := names[..|names| - 1];
      DefaultGroupsAllKnown(store, init);
      assert names == init + [names[|names| - 1]];
    }
  }

  /**
   * The default groups of two lists of names are those of the first list
   * followed by those of the second: each name contributes its stored
   * group, in place and once, or nothing when it is unknown.
   */
  lemma {:induction false} DefaultGroupsConcat(store: GroupStore, a: seq<string>, b: seq<string>)
    ensures DefaultGroups(store, a + b) == DefaultGroups(store, a) + DefaultGroups(store, b)
    decreases |b|
  {
    if b == [] {
      assert a + b == a;
    } else {
      var init := b[..|b| - 1];
      var last := b[|b| - 1];
      DefaultGroupsConcat(store, a, init);
      assert (a + b)[..|a + b| - 1] == a + init;
      assert (a + b)[|a + b| - 1] == last;
    }
  }

  /** A single name contributes its stored group, or nothing when it is unknown. */
  lemma DefaultGroupsOne(store: GroupStore, name: string)
    ensures DefaultGroups(store, [name]) == if name in store then [store[name]] else []
  {
    assert [name][..0] == [];
  }

  /** Refreshing against a consistent store keeps every group's key. */
  lemma RefreshKeepsNames(store: GroupStore, gs: seq<Group>)
    requires StoreIsConsistent(store)
    ensures GroupNamesOf(RefreshedAll(store, gs)) == GroupNamesOf(gs)
  {
  }

  /** Refreshing twice against a consistent store is the same as refreshing once. */
  lemma RefreshIdempotent(store: GroupStore, gs: seq<Group>)
    requires StoreIsConsistent(store)
    ensures RefreshedAll(store, RefreshedAll(store, gs)) == RefreshedAll(store, gs)
  {
  }

  class Profile {
    var username: string
    var fullName: Option<string>
    /** The superuser property: nil, false or true. */
    var superuser: Option<bool>
    var usergroups: seq<Group>
    var creationDate: Option<int>

    /** A new profile: the superuser property takes its default, false. */
    constructor (username: string)
      ensures this.username == username && fullName == None
      ensures superuser == Some(false) && !IsSuperuser()
      ensures usergroups == [] && creationDate == None
    {
      this.username := username;
      fullName := None;
      superuser := Some(false);
      usergroups := [];
      creationDate := None;
    }

    /** `Profile.ANONYMOUS_USER`: a fresh profile named `anonymous` in the single unsaved group `anonymous`. */
    constructor Anonymous()
      ensures username == AnonymousName && fullName == Some("Anonymous")
      ensures superuser == Some(false) && !IsSuperuser()
      ensures usergroups == [Group(AnonymousName, None, None, false)]
      ensures GroupNames() == [AnonymousName]
      ensures BelongsTo(One(AnonymousName)) && !BelongsTo(One(FallbackDefaultGroup))
      ensures creationDate == None
    {
      username := AnonymousName;
      fullName := Some("Anonymous");
      superuser := Some(false);
      usergroups := [Group(AnonymousName, None, None, false)];
      creationDate := None;
    }

    /** `usergroups.map { |group| group.group }`. */
    function GroupNames(): (r: seq<string>)
      reads this
      ensures |r| == |usergroups|
    {
      GroupNamesOf(usergroups)
    }

    /** `is_superuser?`: only a flag that is exactly true makes a superuser; nil does not. */
    predicate IsSuperuser()
      reads this
      ensures IsSuperuser() ==> superuser.Some? && superuser.value
      ensures superuser == None ==> !IsSuperuser()
    {
      superuser == Some(true)
    }

    /** `belongs_to?` asked of this profile's groups. */
    predicate BelongsTo(q: Membership)
      reads this
      ensures q.One? ==> (BelongsTo(q) <==> q.name in GroupNames())
      ensures q.AnyOf? ==> (BelongsTo(q) <==> exists n :: n in q.names && n in GroupNames())
      ensures q.Record? ==> !BelongsTo(q)
    {
      BelongsToNames(GroupNames(), q)
    }

    /**
     * `resource_info`: the prefix `profile_` followed by the key as Ruby
     * interpolates it. The key is the Array `[username]`; `renderKey` stands
     * for how the running Ruby renders that Array inside a string.
     */
    function ResourceInfo(renderKey: string -> string): (r: string)
      reads this
      ensures |r| == |ResourcePrefix| + |renderKey(username)|
      ensures r[..|ResourcePrefix|] == ResourcePrefix && r[|ResourcePrefix|..] == renderKey(username)
    {
      ResourcePrefix + renderKey(username)
    }

    /**
     * The `before :create` hook: stamps the creation date and, when the
     * profile has no groups, appends each stored group named in the
     * comma-separated default (`user` when the variable is unset).
     */
    method BeforeCreate(now: int, defaultGroupSetting: Option<string>, store: GroupStore)
      modifies this
      ensures creationDate == Some(now)
      ensures usergroups == if old(usergroups) == []
                            then DefaultGroups(store, RubyText.Split(defaultGroupSetting.GetOr(FallbackDefaultGroup), ','))
                            else old(usergroups)
      ensures username == old(username) && fullName == old(fullName) && superuser == old(superuser)
    {
      creationDate := Some(now);
      if usergroups == [] {
        var names := RubyText.Split(defaultGroupSetting.GetOr(FallbackDefaultGroup), ',');
        var i := 0;
        while i < |names|
          invariant 0 <= i <= |names|
          invariant usergroups == DefaultGroups(store, names[..i])
          invariant creationDate == Some(now)
          invariant username == old(username) && fullName == old(fullName) && superuser == old(superuser)
        {
          assert names[..i + 1][..i] == names[..i];
          if names[i] in store {
            usergroups := usergroups + [store[names[i]]];
          }
          i := i + 1;
        }
        assert names[..|names|] == names;
      }
    }

    /** `check_usergroups!`: each unsaved group found in the store is replaced by the stored record, in place. */
    method CheckUsergroups(store: GroupStore)
      modifies this
      ensures usergroups == RefreshedAll(store, old(usergroups))
      ensures username == old(username) && fullName == old(fullName)
      ensures superuser == old(superuser) && creationDate == old(creationDate)
    {
      var i := 0;
      while i < |usergroups|
        invariant 0 <= i <= |usergroups| == |old(usergroups)|
        invariant forall k :: 0 <= k < i ==> usergroups[k] == Refreshed(store, old(usergroups)[k])
        invariant forall k :: i <= k < |usergroups| ==> usergroups[k] == old(usergroups)[k]
        invariant username == old(username) && fullName == old(fullName)
        invariant superuser == old(superuser) && creationDate == old(creationDate)
      {
        usergroups := usergroups[i := Refreshed(store, usergroups[i])];
        i := i + 1;
      }
    }
  }

  /** After `check_usergroups!` against a consistent store, `belongs_to?` answers as before. */
  lemma RefreshKeepsMembership(store: GroupStore, gs: seq<Group>, q: Membership)
    requires StoreIsConsistent(store)
    ensures BelongsToNames(GroupNamesOf(RefreshedAll(store, gs)), q) == BelongsToNames(GroupNamesOf(gs), q)
  {
    RefreshKeepsNames(store, gs);
  }

  /** Profiles with different keys have different resource identifiers, when the key rendering tells keys apart. */
  lemma ResourceInfoDistinct(p: Profile, q: Profile, renderKey: string -> string)
    requires forall a, b :: renderKey(a) == renderKey(b) ==> a == b
    requires p.username != q.username
    ensures p.ResourceInfo(renderKey) != q.ResourceInfo(renderKey)
  {
  }
}
