/**
 * Users::RegisteredProfile: the password attribute. A password is never kept
 * as given: it is stored as the digest of a random five-letter salt, two
 * dashes and the password, beside the salt. MD5 is a parameter of the model
 * (any function from strings to strings) and the random choice of each salt
 * letter is a nondeterministic choice.
 */
module RegisteredProfiles {
  import opened Wrappers

  /** `Digest::MD5.hexdigest`, left uninterpreted. */
  type Digest = string -> string

  /** The exception `change_password!` raises. */
  datatype PasswordError = PasswordNotValid

  /** The values of a profile's properties, by name; `None` is nil. */
  type Properties = map<string, Option<string>>

  const PasswordProperty: string := "password"
  const SaltProperty: string := "salt"
  const SaltLength: nat := 5
  const Separator: string := "--"

  /** `('a'..'z').to_a + ('A'..'Z').to_a`. */
  const Alphabet: string :=
    seq(26, k requires 0 <= k < 26 => ('a' as int + k) as char) +
    seq(26, k requires 0 <= k < 26 => ('A' as int + k) as char)

  predicate IsLetter(c: char)
  {
    'a' <= c <= 'z' || 'A' <= c <= 'Z'
  }

  /** A salt as `hash_password` makes one: five letters. */
  predicate IsSalt(s: string)
  {
    |s| == SaltLength && forall k :: 0 <= k < |s| ==> IsLetter(s[k])
  }

  /** The alphabet holds the 52 ASCII letters and nothing else. */
  lemma AlphabetLetters()
    ensures |Alphabet| == 52
    ensures forall k :: 0 <= k < |Alphabet| ==> IsLetter(Alphabet[k])
    ensures forall c :: IsLetter(c) ==> c in Alphabet
  {
    forall c | IsLetter(c)
      ensures c in Alphabet
    {
      if c <= 'Z' {
        assert Alphabet[26 + (c as int - 'A' as int)] == c;
      } else {
        assert Alphabet[c as int - 'a' as int] == c;
      }
    }
  }

  /** The value of a property; an absent property reads as nil. */
  function Lookup(props: Properties, name: string): Option<string>
  {
    if name in props then props[name] else None
  }

  /** Ruby's `"#{v}"`: nil interpolates as the empty string. */
  function Interpolated(v: Option<string>): string
  {
    v.GetOr("")
  }

  /** `"#{salt}--#{password}"`, the text that is digested. */
  function SaltedInput(salt: Option<string>, password: string): (r: string)
    ensures |r| == |Interpolated(salt)| + |Separator| + |password|
    ensures r[..|Interpolated(salt)|] == Interpolated(salt)
    ensures r[|Interpolated(salt)|..|Interpolated(salt)| + |Separator|] == Separator
    ensures r[|Interpolated(salt)| + |Separator|..] == password
  {
    Interpolated(salt) + Separator + password
  }

  /** `check_password`: the stored password is the digest of the stored salt, the dashes and the candidate. */
  predicate PasswordMatches(props: Properties, md5: Digest, candidate: string)
    ensures PasswordMatches(props, md5, candidate) ==> Lookup(props, PasswordProperty).Some?
    ensures PasswordMatches(props, md5, candidate) ==>
      Lookup(props, PasswordProperty).value == md5(Interpolated(Lookup(props, SaltProperty)) + Separator + candidate)
  {
    Lookup(props, PasswordProperty) == Some(md5(SaltedInput(Lookup(props, SaltProperty), candidate)))
  }

  /** The properties after `set_password` chose `salt`: the digest is stored as the password, then the salt. */
  function WithPassword(props: Properties, md5: Digest, salt: string, password: string): (r: Properties)
    ensures r.Keys == props.Keys + {PasswordProperty, SaltProperty}
    ensures forall k :: k in props && k != PasswordProperty && k != SaltProperty ==> r[k] == props[k]
    ensures r[SaltProperty] == Some(salt)
  {
    props[PasswordProperty := Some(md5(SaltedInput(Some(salt), password)))][SaltProperty := Some(salt)]
  }

  /** After a password is set, it checks, whatever the digest function and the salt. */
  lemma SetThenCheck(props: Properties, md5: Digest, salt: string, password: string)
    ensures PasswordMatches(WithPassword(props, md5, salt, password), md5, password)
  {
  }

  /** With a digest that tells inputs apart, the only password that checks is the one that was set. */
  lemma CheckOnlyTheSetPassword(props: Properties, md5: Digest, salt: string, password: string, candidate: string)
    requires forall a, b :: md5(a) == md5(b) ==> a == b
    ensures PasswordMatches(WithPassword(props, md5, salt, password), md5, candidate) <==> candidate == password
  {
  }

  /** `properties_to_serialize`: every property but the password, in the original order. */
  function PropertiesToSerialize(names: seq<string>): (r: seq<string>)
    ensures |r| <= |names|
    ensures forall n :: n in r <==> n in names && n != PasswordProperty
    decreases |names|
  {
    if names == [] then []
    else
      assert forall n :: n in names <==> n == names[0] || n in names[1..];
      (if names[0] == PasswordProperty then [] else [names[0]]) + PropertiesToSerialize(names[1..])
  }

  /** Serialising keeps order: it distributes over concatenation. */
  lemma {:induction false} SerializeConcat(a: seq<string>, b: seq<string>)
    ensures PropertiesToSerialize(a + b) == PropertiesToSerialize(a) + PropertiesToSerialize(b)
    decreases |a|
  {
    if a == [] {
      assert a + b == b;
    } else {
      assert (a + b)[0] == a[0];
      assert (a + b)[1..] == a[1..] + b;
      SerializeConcat(a[1..], b);
    }
  }

  /** A list without the password is serialised as it is. */
  lemma {:induction false} SerializeWithoutPassword(names: seq<string>)
    requires PasswordProperty !in names
    ensures PropertiesToSerialize(names) == names
    decreases |names|
  {
    if names != [] {
      assert forall n :: n in names[1..] ==> n in names;
      SerializeWithoutPassword(names[1..]);
    }
  }

  /** `random_string(size)`: `size` letters, each chosen at random (none for a size below one). */
  method RandomString(size: int) returns (s: string)
    ensures |s| == if size < 0 then 0 else size
    ensures forall k :: 0 <= k < |s| ==> IsLetter(s[k])
  {
    AlphabetLetters();
    s := "";
    var i := 1;
    while i <= size
      invariant 1 <= i && (size >= 0 ==> i <= size + 1) && (size < 0 ==> i == 1)
      invariant |s| == i - 1
      invariant forall k :: 0 <= k < |s| ==> IsLetter(s[k])
    {
      var pick :| 0 <= pick < |Alphabet|;
      s := s + [Alphabet[pick]];
      i := i + 1;
    }
  }

  /** `hash_password`: a fresh salt and the digest of the salted password. */
  method HashPassword(password: string, md5: Digest) returns (salt: string, encPassword: string)
    ensures IsSalt(salt)
    ensures encPassword == md5(SaltedInput(Some(salt), password))
  {
    salt := RandomString(SaltLength);
    encPassword := md5(salt + Separator + password);
  }

  /** A Ruby Hash of attribute values, which `attributes=` changes in place. */
  class AttributeHash {
    var entries: Properties

    constructor (entries: Properties)
      ensures this.entries == entries
    {
      this.entries := entries;
    }
  }

  class RegisteredProfile {
    var properties: Properties

    constructor (properties: Properties)
      ensures this.properties == properties
    {
      this.properties := properties;
    }

    /** `check_password`. */
    predicate CheckPassword(md5: Digest, candidate: string)
      reads this
      ensures Lookup(properties, PasswordProperty).None? ==> !CheckPassword(md5, candidate)
      ensures CheckPassword(md5, candidate) ==>
        properties[PasswordProperty] == Some(md5(Interpolated(Lookup(properties, SaltProperty)) + Separator + candidate))
    {
      PasswordMatches(properties, md5, candidate)
    }

    /** DataMapper's own `attribute_set` (`base_attribute_set`): a plain assignment. */
    method BaseAttributeSet(name: string, value: Option<string>)
      modifies this
      ensures properties == old(properties)[name := value]
    {
      properties := properties[name := value];
    }

    /** `set_password`: stores the digest of a fresh salt and the password, then the salt. */
    method SetPassword(password: string, md5: Digest)
      modifies this
      ensures exists salt :: IsSalt(salt) && properties == WithPassword(old(properties), md5, salt, password)
      ensures CheckPassword(md5, password)
      decreases 1
    {
      var salt, hashPassword := HashPassword(password, md5);
      BaseAttributeSet(PasswordProperty, Some(hashPassword));
      AttributeSet(SaltProperty, Some(salt), md5);
      SetThenCheck(old(properties), md5, salt, password);
    }

    /** `attribute_set`: the password goes through `set_password`; any other name is a plain assignment. */
    method AttributeSet(name: string, value: Option<string>, md5: Digest)
      modifies this
      ensures name == PasswordProperty ==>
        exists salt :: IsSalt(salt) && properties == WithPassword(old(properties), md5, salt, Interpolated(value))
      ensures name != PasswordProperty ==> properties == old(properties)[name := value]
      decreases if name == PasswordProperty then 2 else 0
    {
      if name == PasswordProperty {
        SetPassword(Interpolated(value), md5);
      } else {
        BaseAttributeSet(name, value);
      }
    }

    /**
     * `attributes=`: removes the password from the caller's hash, assigns the
     * rest, then sets the password through `attribute_set` if one was given.
     */
    method SetAttributes(attributes: AttributeHash, md5: Digest)
      modifies this, attributes
      ensures attributes.entries == old(attributes.entries) - {PasswordProperty}
      ensures Lookup(old(attributes.entries), PasswordProperty).None? ==>
        properties == old(properties) + attributes.entries
      ensures Lookup(old(attributes.entries), PasswordProperty).Some? ==>
        exists salt :: IsSalt(salt) &&
          properties == WithPassword(old(properties) + attributes.entries, md5, salt,
                                     Lookup(old(attributes.entries), PasswordProperty).value)
    {
      var password := Lookup(attributes.entries, PasswordProperty);
      attributes.entries := attributes.entries - {PasswordProperty};
      properties := properties + attributes.entries;
      if password.Some? {
        AttributeSet(PasswordProperty, password, md5);
      }
    }

    /**
     * `change_password!`: when the current password checks, the new one is
     * set; otherwise `PasswordNotValid` is raised and nothing changes.
     */
    method ChangePassword(password: string, newPassword: string, md5: Digest)
      returns (outcome: Outcome<PasswordError>)
      modifies this
      ensures !old(CheckPassword(md5, password)) ==> outcome == Fail(PasswordNotValid) && properties == old(properties)
      ensures old(CheckPassword(md5, password)) ==>
        outcome == Pass && CheckPassword(md5, newPassword) &&
        exists salt :: IsSalt(salt) && properties == WithPassword(old(properties), md5, salt, newPassword)
    {
      if CheckPassword(md5, password) {
        SetPassword(newPassword, md5);
        outcome := Pass;
      } else {
        outcome := Fail(PasswordNotValid);
      }
    }
  }

  /** `RegisteredProfile.login`: the stored user if it exists and the password checks, nil otherwise. */
  method Login(users: map<string, RegisteredProfile>, username: string, password: string, md5: Digest)
    returns (user: Option<RegisteredProfile>)
    ensures user.Some? <==> username in users && users[username].CheckPassword(md5, password)
    ensures user.Some? ==> user.value == users[username]
  {
    if username in users && users[username].CheckPassword(md5, password) {
      user := Some(users[username]);
    } else {
      user := None;
    }
  }
}
