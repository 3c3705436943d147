/**
 * Users::AccessControlConditionsAppender and its two ORM variants: the query
 * conditions that restrict a bulk read to the records the connected profile
 * may read, in the numeric scheme where the modifier values 2 and 6 mean
 * "readable".
 */
module AccessControlConditions {
  import opened Wrappers
  import Profiles

  /** The value a comparison tests a field against. */
  datatype Operand = Text(text: string) | Numbers(values: seq<int>) | Groups(groups: seq<Profiles.Group>)

  /**
   * The shape of a `Conditions::Comparison` / `Conditions::JoinComparison`
   * tree. `CallerConditions` is a condition the caller supplied in a form the
   * appender passes along without looking into it.
   */
  datatype Condition =
    | Comparison(field: string, operator: string, operand: Operand)
    | JoinComparison(operator: string, conditions: seq<Condition>)
    | CallerConditions(raw: string)

  /** A value of the options hash: a condition tree, or any other setting (limit, order, ...). */
  datatype OptionValue = Setting(raw: string) | Filter(condition: Condition)

  /** The modifier values that make a record readable. */
  const Readable: seq<int> := [2, 6]
  /** The key of the options hash that holds the conditions. */
  const ConditionsKey: string := "conditions"

  /** The owner clause; the modifier field name is spelled as in the source. */
  function OwnerClause(username: string): Condition
  {
    JoinComparison("$and", [Comparison("permission_owner", "$eq", Text(username)),
                            Comparison("permision_modifier_owner", "$in", Numbers(Readable))])
  }

  /** The group clause over the profile's groups. */
  function GroupClause(groups: seq<Profiles.Group>): Condition
  {
    JoinComparison("$and", [Comparison("permission_group", "$in", Groups(groups)),
                            Comparison("permission_modifier_group", "$in", Numbers(Readable))])
  }

  /** The clause every record readable by everybody satisfies. */
  const AllClause: Condition := Comparison("permission_modifier_all", "$in", Numbers(Readable))

  /** The objects the conditions of a connected profile depend on. */
  function ProfileFrame(connected: Option<Profiles.Profile>): set<object>
  {
    if connected.Some? then {connected.value} else {}
  }

  /** The clauses collected before they are combined. */
  function Clauses(connected: Option<Profiles.Profile>): (r: seq<Condition>)
    reads ProfileFrame(connected)
    ensures 1 <= |r| <= 3
    ensures r[|r| - 1] == AllClause
    ensures connected.Some? ==> r[0] == OwnerClause(connected.value.username)
    ensures |r| == 3 <==> connected.Some? && |connected.value.usergroups| > 0
    ensures |r| == 1 <==> connected.None?
  {
    if connected.None? then [AllClause]
    else
      var profile := connected.value;
      [OwnerClause(profile.username)]
      + (if |profile.usergroups| > 0 then [GroupClause(profile.usergroups)] else [])
      + [AllClause]
  }

  /** A single clause stands alone; two or more are combined with `$or`. */
  function Disjoin(clauses: seq<Condition>): Condition
    requires |clauses| >= 1
  {
    if |clauses| > 1 then JoinComparison("$or", clauses) else clauses[0]
  }

  /** `access_control_conditions`, as a value. */
  function AccessConditions(connected: Option<Profiles.Profile>): (c: Condition)
    reads ProfileFrame(connected)
    ensures connected.None? ==> c == AllClause
    ensures connected.Some? && connected.value.usergroups == [] ==>
      c == JoinComparison("$or", [OwnerClause(connected.value.username), AllClause])
    ensures connected.Some? && connected.value.usergroups != [] ==>
      c == JoinComparison("$or", [OwnerClause(connected.value.username),
                                  GroupClause(connected.value.usergroups), AllClause])
  {
    var clauses := Clauses(connected);
    assert connected.Some? && connected.value.usergroups == [] ==>
      clauses == [OwnerClause(connected.value.username)] + [] + [AllClause]
              == [OwnerClause(connected.value.username), AllClause];
    assert connected.Some? && connected.value.usergroups != [] ==>
      clauses == [OwnerClause(connected.value.username)] + [GroupClause(connected.value.usergroups)] + [AllClause]
              == [OwnerClause(connected.value.username), GroupClause(connected.value.usergroups), AllClause];
    Disjoin(clauses)
  }

  /**
   * `access_control_conditions`: collects the owner clause and, when the
   * profile has groups, the group clause, then the clause for everybody,
   * and combines them.
   */
  method AccessControlConditions(connected: Option<Profiles.Profile>) returns (c: Condition)
    ensures c == AccessConditions(connected)
  {
    var conditions: seq<Condition> := [];
    if connected.Some? {
      var profile := connected.value;
      conditions := conditions + [OwnerClause(profile.username)];
      var profileGroups := profile.usergroups;
      if |profileGroups| > 0 {
        conditions := conditions + [GroupClause(profileGroups)];
      }
    }
    conditions := conditions + [AllClause];
    if |conditions| > 1 {
      c := JoinComparison("$or", conditions);
    } else {
      c := conditions[0];
    }
  }

  /** The result holds one to three clauses, and an `$or` node is built exactly when there are two or more. */
  lemma ClauseCountAndWrapping(connected: Option<Profiles.Profile>)
    ensures 1 <= |Clauses(connected)| <= 3
    ensures AccessConditions(connected).JoinComparison? && AccessConditions(connected).operator == "$or"
            <==> |Clauses(connected)| >= 2
    ensures |Clauses(connected)| >= 2 ==> AccessConditions(connected).conditions == Clauses(connected)
    ensures |Clauses(connected)| == 1 ==> AccessConditions(connected) == Clauses(connected)[0]
  {
  }

  /**
   * The anonymous sentinel is a profile with one group: when it stands for the
   * connected user it gets the owner, group and everybody clauses, never the
   * bare clause for everybody.
   */
  lemma AnonymousSentinelConditions(p: Profiles.Profile)
    requires p.username == Profiles.AnonymousName
    requires p.usergroups == [Profiles.Group(Profiles.AnonymousName, None, None, false)]
    ensures |Clauses(Some(p))| == 3
    ensures AccessConditions(Some(p)) != AllClause
  {
  }

  /** The merged conditions: the caller's conditions and the access conditions under `$and`, or the latter alone. */
  function MergedConditions(options: map<string, OptionValue>, ac: Condition): Condition
  {
    if ConditionsKey in options then JoinComparison("$and", [AsCondition(options[ConditionsKey]), ac])
    else ac
  }

  /** The caller's `:conditions` value as the first operand of the `$and`. */
  function AsCondition(v: OptionValue): Condition
  {
    match v
    case Filter(c) => c
    case Setting(raw) => CallerConditions(raw)
  }

  /** The upgraded options: a copy of the caller's in which only `:conditions` differs. */
  function Upgrade(options: map<string, OptionValue>, ac: Condition): (r: map<string, OptionValue>)
    ensures r.Keys == options.Keys + {ConditionsKey}
    ensures forall k :: k in options && k != ConditionsKey ==> r[k] == options[k]
    ensures ConditionsKey !in options ==> r[ConditionsKey] == Filter(ac)
    ensures ConditionsKey in options ==>
      r[ConditionsKey].Filter? && r[ConditionsKey].condition.JoinComparison? &&
      r[ConditionsKey].condition.operator == "$and" &&
      r[ConditionsKey].condition.conditions == [AsCondition(options[ConditionsKey]), ac]
  {
    options[ConditionsKey := Filter(MergedConditions(options, ac))]
  }

  /** A Ruby Hash of query options. */
  class QueryOptions {
    var entries: map<string, OptionValue>

    constructor (entries: map<string, OptionValue>)
      ensures this.entries == entries
    {
      this.entries := entries;
    }
  }

  /**
   * `build_access_control_conditions`: merges the access conditions into a
   * duplicate of the caller's options; the caller's hash is left untouched.
   */
  method BuildAccessControlConditions(options: QueryOptions, connected: Option<Profiles.Profile>)
    returns (upgraded: QueryOptions)
    ensures fresh(upgraded)
    ensures upgraded.entries == Upgrade(options.entries, AccessConditions(connected))
  {
    var acConditions := AccessControlConditions(connected);
    var conditions := MergedConditions(options.entries, acConditions);
    upgraded := new QueryOptions(options.entries);
    upgraded.entries := upgraded.entries[ConditionsKey := Filter(conditions)];
  }

  /** The Persistence variant of `all`: the original query runs with the upgraded options. */
  method PersistenceAll<R>(options: QueryOptions, connected: Option<Profiles.Profile>,
                           originalAll: map<string, OptionValue> -> R) returns (r: R)
    ensures r == originalAll(Upgrade(options.entries, AccessConditions(connected)))
  {
    var upgraded := BuildAccessControlConditions(options, connected);
    r := originalAll(upgraded.entries);
  }

  /** The Persistence variant of `count`: the original count runs with the same upgraded options as `all`. */
  method PersistenceCount(options: QueryOptions, connected: Option<Profiles.Profile>,
                          originalCount: map<string, OptionValue> -> int) returns (count: int)
    ensures count == originalCount(Upgrade(options.entries, AccessConditions(connected)))
  {
    var upgraded := BuildAccessControlConditions(options, connected);
    count := originalCount(upgraded.entries);
  }

  /** The DataMapper variant of `all`: the options pass through unchanged, with no access conditions. */
  method DataMapperAll<R>(options: QueryOptions, originalAll: map<string, OptionValue> -> R) returns (r: R)
    ensures r == originalAll(options.entries)
  {
    r := originalAll(options.entries);
  }
}
