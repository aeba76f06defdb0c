/** `String.prototype.split` with a one-character separator, and its inverse `join`. */
module Strings {

  /** `s.split(sep)`: the maximal runs of `s` between separators, empty runs included. */
  function Split(s: string, sep: char): (fields: seq<string>)
    ensures |fields| >= 1
    ensures forall i :: 0 <= i < |fields| ==> sep !in fields[i]
    decreases |s|
  {
    if s == [] then [""]
    else
      var rest := Split(s[1..], sep);
      if s[0] == sep then [""] + rest
      else [[s[0]] + rest[0]] + rest[1..]
  }

  /** `fields.join(sep)`. */
  function Join(fields: seq<string>, sep: char): (s: string)
    decreases |fields|
  {
    if |fields| == 0 then ""
    else if |fields| == 1 then fields[0]
    else fields[0] + [sep] + Join(fields[1..], sep)
  }

  /** Joining the fields of a split gives back the string. */
  lemma {:induction false} JoinSplit(s: string, sep: char)
    ensures Join(Split(s, sep), sep) == s
    decreases |s|
  {
    if s != [] {
      JoinSplit(s[1..], sep);
      var rest := Split(s[1..], sep);
      if s[0] == sep {
        assert Split(s, sep) == [""] + rest;
        assert ([""] + rest)[1..] == rest;
      } else {
        var fields := Split(s, sep);
        assert fields == [[s[0]] + rest[0]] + rest[1..];
        if |rest| == 1 {
          assert Join(fields, sep) == [s[0]] + rest[0];
        } else {
          assert fields[1..] == rest[1..];
          assert Join(rest, sep) == rest[0] + [sep] + Join(rest[1..], sep);
          assert Join(fields, sep) == [s[0]] + rest[0] + [sep] + Join(rest[1..], sep);
        }
      }
    }
  }

  /** A string without the separator is a single field. */
  lemma {:induction false} SplitNoSeparator(s: string, sep: char)
    requires sep !in s
    ensures Split(s, sep) == [s]
    decreases |s|
  {
    if s != [] {
      assert s[0] in s;
      SplitNoSeparator(s[1..], sep);
      assert [s[0]] + s[1..] == s;
    }
  }

  /** A separator-free run followed by a separator is the first field of the split. */
  lemma {:induction false} SplitAfterField(f: string, sep: char, t: string)
    requires sep !in f
    ensures Split(f + [sep] + t, sep) == [f] + Split(t, sep)
    decreases |f|
  {
    if f == [] {
      assert f + [sep] + t == [sep] + t;
      assert ([sep] + t)[1..] == t;
    } else {
      var s := f + [sep] + t;
      assert s[0] == f[0];
      assert s[1..] == f[1..] + [sep] + t;
      SplitAfterField(f[1..], sep, t);
      assert [f[0]] + f[1..] == f;
    }
  }

  /** Splitting the join of separator-free fields gives back the fields. */
  lemma {:induction false} SplitJoin(fields: seq<string>, sep: char)
    requires |fields| >= 1
    requires forall i :: 0 <= i < |fields| ==> sep !in fields[i]
    ensures Split(Join(fields, sep), sep) == fields
    decreases |fields|
  {
    if |fields| == 1 {
      SplitNoSeparator(fields[0], sep);
    } else {
      SplitJoin(fields[1..], sep);
      SplitAfterField(fields[0], sep, Join(fields[1..], sep));
      assert [fields[0]] + fields[1..] == fields;
    }
  }
}
