/**
 * Users::ResourceAccessControl: the letter-coded, per-record access decision.
 *
 * A resource carries an owner, a group and a modifier string of up to three
 * letters: the first for the owner, the second for the group, the last for
 * everybody. An operation needs the letter `R` (read) or `W` (write); a tier
 * grants the operation only when its letter is exactly that letter.
 */
module ResourceAccessControl {
  import opened Wrappers
  import RubyText

  /** The operation symbol passed to `allowed?`. */
  datatype Operation = Read | Write | OtherOperation(name: string)

  /**
   * The requesting profile as `allowed?` sees it: its username, whether it is
   * a superuser, and its groups as one comma-separated string.
   */
  datatype Requester = Requester(username: string, superUser: bool, groups: string)

  /** The three properties the module adds to a resource; `None` is nil. */
  datatype Resource = Resource(owner: Option<string>, group: Option<string>, modifiers: string)

  /** The letter that stands in for a missing modifier. */
  const MissingLetter: char := 'N'
  /** The default modifier string of a resource. */
  const DefaultModifiers: string := "ARN"
  /** The column width declared for the modifier string. */
  const ModifiersLength: nat := 3

  /** A resource as created, before any property is assigned. */
  function NewResource(): (r: Resource)
    ensures r.owner == None && r.group == None
    ensures |r.modifiers| == ModifiersLength
    ensures OwnerLetter(r.modifiers) == 'A' && GroupLetter(r.modifiers) == 'R'
    ensures EverybodyLetter(r.modifiers) == 'N'
  {
    Resource(None, None, DefaultModifiers)
  }

  /** The letter an operation needs; `None` for an operation other than read or write. */
  function RequiredLetter(op: Operation): (r: Option<char>)
    ensures r == Some('R') <==> op == Read
    ensures r == Some('W') <==> op == Write
    ensures r.None? <==> op.OtherOperation?
  {
    match op
    case Read => Some('R')
    case Write => Some('W')
    case OtherOperation(_) => None
  }

  /** The first letter, or the missing letter. */
  function OwnerLetter(modifiers: string): char
  {
    if |modifiers| > 0 then modifiers[0] else MissingLetter
  }

  /** The second letter, or the missing letter. */
  function GroupLetter(modifiers: string): char
  {
    if |modifiers| > 1 then modifiers[1] else MissingLetter
  }

  /** The last letter, or the missing letter. */
  function EverybodyLetter(modifiers: string): char
  {
    if |modifiers| > 0 then modifiers[|modifiers| - 1] else MissingLetter
  }

  /** A letter grants an operation only when it is exactly the letter the operation needs. */
  predicate Grants(letter: char, op: Operation)
  {
    RequiredLetter(op) == Some(letter)
  }

  /** The profile is the owner of the resource. */
  predicate IsOwner(r: Resource, p: Requester)
  {
    r.owner == Some(p.username)
  }

  /** The resource's group is one of the profile's comma-separated groups. */
  predicate InGroup(r: Resource, p: Requester)
  {
    r.group.Some? && r.group.value in RubyText.Split(p.groups, ',')
  }

  /** `allowed?(profile, operation)`: everybody, superuser, owner or group. */
  predicate Allowed(r: Resource, p: Requester, op: Operation)
    ensures p.superUser ==> Allowed(r, p, op)
    ensures Allowed(r, p, op) && !p.superUser ==> RequiredLetter(op).Some?
  {
    || Grants(EverybodyLetter(r.modifiers), op)
    || p.superUser
    || (IsOwner(r, p) && Grants(OwnerLetter(r.modifiers), op))
    || (InGroup(r, p) && Grants(GroupLetter(r.modifiers), op))
  }

  // ---------------------------------------------------------------------------
  // An independent reading of the decision: by tier.

  /** The three tiers of the letter scheme. */
  datatype Tier = OwnerTier | GroupTier | EverybodyTier

  /** The letter that governs a tier. */
  function TierLetter(modifiers: string, t: Tier): char
  {
    match t
    case OwnerTier => OwnerLetter(modifiers)
    case GroupTier => GroupLetter(modifiers)
    case EverybodyTier => EverybodyLetter(modifiers)
  }

  /** Whether the profile falls into a tier of the resource. */
  predicate InTier(r: Resource, p: Requester, t: Tier)
  {
    match t
    case OwnerTier => IsOwner(r, p)
    case GroupTier => InGroup(r, p)
    case EverybodyTier => true
  }

  /** Access is granted exactly to a superuser, or through a tier the profile is in whose letter is the one the operation needs. */
  lemma AllowedByTier(r: Resource, p: Requester, op: Operation)
    ensures Allowed(r, p, op) <==>
      p.superUser || exists t: Tier :: InTier(r, p, t) && RequiredLetter(op) == Some(TierLetter(r.modifiers, t))
  {
    if Allowed(r, p, op) && !p.superUser {
      if Grants(EverybodyLetter(r.modifiers), op) {
        assert InTier(r, p, EverybodyTier);
      } else if IsOwner(r, p) && Grants(OwnerLetter(r.modifiers), op) {
        assert InTier(r, p, OwnerTier);
      } else {
        assert InTier(r, p, GroupTier);
      }
    }
  }

  // ---------------------------------------------------------------------------
  // Properties of the decision.

  /** A superuser may perform every operation on every resource. */
  lemma SuperuserAlwaysAllowed(r: Resource, p: Requester, op: Operation)
    requires p.superUser
    ensures Allowed(r, p, op)
  {
  }

  /** When the everybody letter is the required one, every profile may perform the operation. */
  lemma EverybodyLetterAllowsAnyone(r: Resource, p: Requester, op: Operation)
    requires RequiredLetter(op) == Some(EverybodyLetter(r.modifiers))
    ensures Allowed(r, p, op)
  {
  }

  /** Without the superuser flag and outside the owner and group tiers, only the everybody letter decides. */
  lemma StrangerNeedsEverybodyLetter(r: Resource, p: Requester, op: Operation)
    requires !p.superUser && !IsOwner(r, p) && !InGroup(r, p)
    ensures Allowed(r, p, op) <==> RequiredLetter(op) == Some(EverybodyLetter(r.modifiers))
  {
  }

  /**
   * When neither the superuser flag, the group tier nor the everybody letter
   * applies, access is granted exactly when the profile owns the resource and
   * the first letter is the required one.
   */
  lemma OwnerBranchDecides(r: Resource, p: Requester, op: Operation)
    requires !p.superUser && !InGroup(r, p) && !Grants(EverybodyLetter(r.modifiers), op)
    ensures Allowed(r, p, op) <==> r.owner == Some(p.username) && RequiredLetter(op) == Some(OwnerLetter(r.modifiers))
  {
  }

  /**
   * When neither the superuser flag, the owner tier nor the everybody letter
   * applies, access is granted exactly when the resource's group is one of the
   * profile's comma-separated groups and the second letter is the required one.
   */
  lemma GroupBranchDecides(r: Resource, p: Requester, op: Operation)
    requires !p.superUser && !IsOwner(r, p) && !Grants(EverybodyLetter(r.modifiers), op)
    ensures Allowed(r, p, op) <==>
      r.group.Some? && r.group.value in RubyText.Split(p.groups, ',') &&
      RequiredLetter(op) == Some(GroupLetter(r.modifiers))
  {
  }

  /** No letter grants both read and write: there is no "write implies read". */
  lemma NoLetterGrantsBoth(c: char)
    ensures !(Grants(c, Read) && Grants(c, Write))
  {
  }

  /** An owner whose letter is `W` may write but not read when nothing else applies. */
  lemma WriteDoesNotImplyRead()
    ensures var r := Resource(Some("bob"), None, "WNN");
            var p := Requester("bob", false, "");
            Allowed(r, p, Write) && !Allowed(r, p, Read)
  {
  }

  /** An operation other than read and write is allowed to a superuser only. */
  lemma OtherOperationOnlySuperuser(r: Resource, p: Requester, name: string)
    ensures Allowed(r, p, OtherOperation(name)) <==> p.superUser
  {
  }

  /** An empty modifier string leaves every tier with the missing letter: only a superuser gets in. */
  lemma EmptyModifiersOnlySuperuser(r: Resource, p: Requester, op: Operation)
    requires r.modifiers == ""
    ensures Allowed(r, p, op) <==> p.superUser
  {
  }

  /**
   * With the default modifiers `ARN` the owner letter `A` grants nothing and the
   * everybody letter is `N`: a non-superuser may only read, and only as a
   * member of the group; nobody but a superuser may write.
   */
  lemma DefaultModifiersDecision(owner: Option<string>, group: Option<string>, p: Requester, op: Operation)
    ensures var r := Resource(owner, group, DefaultModifiers);
            Allowed(r, p, op) <==> p.superUser || (op == Read && InGroup(r, p))
    ensures !p.superUser ==> !Allowed(Resource(owner, group, DefaultModifiers), p, Write)
  {
  }

  /**
   * The everybody letter is the last one: for a single letter it is the owner
   * letter, for two letters the group letter.
   */
  lemma EverybodyLetterPosition(modifiers: string)
    ensures |modifiers| == 1 ==> EverybodyLetter(modifiers) == OwnerLetter(modifiers)
    ensures |modifiers| == 2 ==> EverybodyLetter(modifiers) == GroupLetter(modifiers)
    ensures |modifiers| == 3 ==> EverybodyLetter(modifiers) == modifiers[2]
    ensures |modifiers| < 2 ==> GroupLetter(modifiers) == MissingLetter
  {
  }

  /**
   * When the profile's group string lists proper group names, the group tier
   * holds exactly when the resource's group is one of those names.
   */
  lemma GroupTierByNames(r: Resource, p: Requester, names: seq<string>)
    requires forall k :: 0 <= k < |names| ==> RubyText.IsField(names[k], ',')
    requires p.groups == RubyText.Join(names, ',')
    ensures InGroup(r, p) <==> r.group.Some? && r.group.value in names
  {
    RubyText.SplitJoin(names, ',');
  }

  // ---------------------------------------------------------------------------
  // The decision as the Ruby code is written.

  /**
   * The Ruby values compared in `allowed?`: the letters are one-character
   * Strings, while the required access and the missing-letter default are
   * Symbols (`:R`, `:W`, `:N`) or nil. A String never equals a Symbol.
   */
  datatype RubyValue = Str(text: string) | Sym(name: string) | Nil

  function RequiredAsWritten(op: Operation): RubyValue
  {
    match op
    case Read => Sym("R")
    case Write => Sym("W")
    case OtherOperation(_) => Nil
  }

  /** `modifiers.first || :N`, `modifiers[1] || :N` and `modifiers.last || :N`. */
  function LetterAsWritten(modifiers: string, t: Tier): RubyValue
  {
    match t
    case OwnerTier => if |modifiers| > 0 then Str([modifiers[0]]) else Sym("N")
    case GroupTier => if |modifiers| > 1 then Str([modifiers[1]]) else Sym("N")
    case EverybodyTier => if |modifiers| > 0 then Str([modifiers[|modifiers| - 1]]) else Sym("N")
  }

  /** `allowed?` with Ruby's String-versus-Symbol equality. */
  predicate AllowedAsWritten(r: Resource, p: Requester, op: Operation)
    ensures AllowedAsWritten(r, p, op) <==> p.superUser
  {
    || LetterAsWritten(r.modifiers, EverybodyTier) == RequiredAsWritten(op)
    || p.superUser
    || (IsOwner(r, p) && LetterAsWritten(r.modifiers, OwnerTier) == RequiredAsWritten(op))
    || (InGroup(r, p) && LetterAsWritten(r.modifiers, GroupTier) == RequiredAsWritten(op))
  }

  /** As written, no letter ever matches: only the superuser flag grants access. */
  lemma AsWrittenOnlySuperuser(r: Resource, p: Requester, op: Operation)
    ensures AllowedAsWritten(r, p, op) <==> p.superUser
  {
  }

  /** An owner with letter `R` is refused a read as written, though the letters say it may read. */
  lemma AsWrittenRefusesOwner()
    ensures var r := Resource(Some("bob"), None, "RNN");
            var p := Requester("bob", false, "");
            Allowed(r, p, Read) && !AllowedAsWritten(r, p, Read)
  {
  }
}
