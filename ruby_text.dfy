/**
 * The two pieces of Ruby's String library the core relies on:
 * `String#split(sep)` with a one-character separator, and joining names
 * back with that separator (the inverse used to state round trips).
 */
module RubyText {

  /**
   * The fields of `s` between occurrences of `sep`, empty fields included.
   * There is always at least one field.
   */
  function Fields(s: string, sep: char): (r: seq<string>)
    ensures |r| >= 1
    ensures forall k :: 0 <= k < |r| ==> sep !in r[k]
    decreases |s|
  {
    if s == [] then [""]
    else if s[0] == sep then [""] + Fields(s[1..], sep)
    else
      var rest := Fields(s[1..], sep);
      [[s[0]] + rest[0]] + rest[1..]
  }

  /** Ruby's `split` drops every trailing empty field (so `"".split(",") == []`). */
  function DropTrailingEmpty(xs: seq<string>): (r: seq<string>)
    ensures r <= xs
    ensures r != [] ==> r[|r| - 1] != ""
    ensures forall k :: |r| <= k < |xs| ==> xs[k] == ""
  {
    if xs == [] then []
    else if xs[|xs| - 1] == "" then DropTrailingEmpty(xs[..|xs| - 1])
    else xs
  }

  /** `s.split(sep)` for a one-character separator, as Ruby computes it. */
  function Split(s: string, sep: char): (r: seq<string>)
    ensures forall k :: 0 <= k < |r| ==> sep !in r[k]
    ensures r != [] ==> r[|r| - 1] != ""
    ensures s == [] ==> r == []
  {
    DropTrailingEmpty(Fields(s, sep))
  }

  /** `names.join(sep)`. */
  function Join(names: seq<string>, sep: char): string
    decreases |names|
  {
    if names == [] then ""
    else if |names| == 1 then names[0]
    else names[0] + [sep] + Join(names[1..], sep)
  }

  /** A name that survives a split and join: non-empty and free of the separator. */
  predicate IsField(name: string, sep: char)
  {
    name != [] && sep !in name
  }

  lemma {:induction false} FieldsOfField(name: string, sep: char)
    requires sep !in name
    ensures Fields(name, sep) == [name]
    decreases |name|
  {
    if name != [] {
      FieldsOfField(name[1..], sep);
      assert [name[0]] + name[1..] == name;
    }
  }

  lemma {:induction false} FieldsAfterField(name: string, sep: char, rest: string)
    requires sep !in name
    ensures Fields(name + [sep] + rest, sep) == [name] + Fields(rest, sep)
    decreases |name|
  {
    if name == [] {
      assert name + [sep] + rest == [sep] + rest;
      assert ([sep] + rest)[1..] == rest;
    } else {
      var s := name + [sep] + rest;
      assert s[0] == name[0];
      assert s[1..] == name[1..] + [sep] + rest;
      FieldsAfterField(name[1..], sep, rest);
      assert [name[0]] + name[1..] == name;
    }
  }

  /** Joining the fields of `s` back with the separator gives `s`: the fields are the pieces of `s`. */
  lemma {:induction false} JoinFields(s: string, sep: char)
    ensures Join(Fields(s, sep), sep) == s
    decreases |s|
  {
    if s == [] {
    } else if s[0] == sep {
      var rest := Fields(s[1..], sep);
      JoinFields(s[1..], sep);
      assert Fields(s, sep) == [""] + rest;
      assert ([""] + rest)[1..] == rest;
      assert s == [sep] + s[1..];
    } else {
      var rest := Fields(s[1..], sep);
      JoinFields(s[1..], sep);
      var fs := [[s[0]] + rest[0]] + rest[1..];
      assert Fields(s, sep) == fs;
      assert fs[1..] == rest[1..];
      if |rest| == 1 {
        assert s == [s[0]] + s[1..];
      } else {
        assert Join(rest, sep) == rest[0] + [sep] + Join(rest[1..], sep);
        assert s == [s[0]] + s[1..];
      }
    }
  }

  /** Splitting a joined list of proper names gives the list back. */
  lemma {:induction false} SplitJoin(names: seq<string>, sep: char)
    requires forall k :: 0 <= k < |names| ==> IsField(names[k], sep)
    ensures Split(Join(names, sep), sep) == names
  {
    FieldsJoin(names, sep);
  }

  lemma {:induction false} FieldsJoin(names: seq<string>, sep: char)
    requires forall k :: 0 <= k < |names| ==> IsField(names[k], sep)
    ensures names != [] ==> Fields(Join(names, sep), sep) == names
    ensures DropTrailingEmpty(Fields(Join(names, sep), sep)) == names
    decreases |names|
  {
    if names == [] {
      assert Fields("", sep) == [""];
      assert DropTrailingEmpty([""]) == DropTrailingEmpty([]);
    } else if |names| == 1 {
      FieldsOfField(names[0], sep);
    } else {
      FieldsJoin(names[1..], sep);
      FieldsAfterField(names[0], sep, Join(names[1..], sep));
      assert names == [names[0]] + names[1..];
    }
    if names != [] {
      assert names[|names| - 1] != "";
    }
  }
}
