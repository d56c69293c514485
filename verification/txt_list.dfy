/** The value convention of the discovery TXT records: one string holding a
    comma-separated list, where the empty string stands for the empty list.
    `Split` follows the semantics of JavaScript's `String.prototype.split` with a
    one-character separator: empty pieces are kept, and the empty string splits
    into a single empty piece. */
module TxtList {

  /** Concatenates the pieces with `sep` between neighbours; the inverse of `Split`. */
  function Join(pieces: seq<string>, sep: char): string
  {
    if |pieces| == 0 then ""
    else if |pieces| == 1 then pieces[0]
    else pieces[0] + [sep] + Join(pieces[1..], sep)
  }

  /** Cuts `s` at every occurrence of `sep`. */
  function Split(s: string, sep: char): (pieces: seq<string>)
    ensures |pieces| >= 1
    ensures forall i :: 0 <= i < |pieces| ==> sep !in pieces[i]
    ensures Join(pieces, sep) == s
    decreases |s|
  {
    if |s| == 0 then [""]
    else
      var rest := Split(s[1..], sep);
      if s[0] == sep then
        assert s == [sep] + s[1..];
        [""] + rest
      else
        assert s == [s[0]] + s[1..];
        [[s[0]] + rest[0]] + rest[1..]
  }

  /** A string without `sep` is a single piece. */
  lemma {:induction false} SplitWithoutSeparator(p: string, sep: char)
    requires sep !in p
    ensures Split(p, sep) == [p]
    decreases |p|
  {
    if |p| > 0 {
      SplitWithoutSeparator(p[1..], sep);
    }
  }

  /** A separator-free prefix followed by `sep` becomes the first piece. */
  lemma {:induction false} SplitAfterPrefix(p: string, t: string, sep: char)
    requires sep !in p
    ensures Split(p + [sep] + t, sep) == [p] + Split(t, sep)
    decreases |p|
  {
    var s := p + [sep] + t;
    if |p| == 0 {
      assert s[1..] == t;
    } else {
      assert s[1..] == p[1..] + [sep] + t;
      SplitAfterPrefix(p[1..], t, sep);
      assert [p[0]] + p[1..] == p;
    }
  }

  /** The other half of the round trip: splitting a join of separator-free
      pieces gives the pieces back. */
  lemma {:induction false} SplitJoin(pieces: seq<string>, sep: char)
    requires |pieces| >= 1
    requires forall i :: 0 <= i < |pieces| ==> sep !in pieces[i]
    ensures Split(Join(pieces, sep), sep) == pieces
    decreases |pieces|
  {
    if |pieces| == 1 {
      SplitWithoutSeparator(pieces[0], sep);
    } else {
      var tail := pieces[1..];
      SplitJoin(tail, sep);
      SplitAfterPrefix(pieces[0], Join(tail, sep), sep);
      assert [pieces[0]] + tail == pieces;
    }
  }

  /** `names` is what the TXT list value `value` stands for: the empty list
      for the empty string, otherwise comma-free names, never the single empty
      name, that joined with `,` give back the value. */
  predicate IsReadingOf(names: seq<string>, value: string)
  {
    && (value == "" <==> names == [])
    && names != [""]
    && (forall i :: 0 <= i < |names| ==> ',' !in names[i])
    && Join(names, ',') == value
  }

  /** Reads a TXT list value: the empty string is the empty list, anything
      else is its comma-separated pieces. */
  function ParseList(value: string): (names: seq<string>)
    ensures IsReadingOf(names, value)
  {
    if value == "" then [] else Split(value, ',')
  }

  /** Reading a join of comma-free names, other than `[""]`, gives the names back. */
  lemma ParseJoin(names: seq<string>)
    requires names != [""]
    requires forall i :: 0 <= i < |names| ==> ',' !in names[i]
    ensures ParseList(Join(names, ',')) == names
  {
    if |names| == 1 {
      SplitJoin(names, ',');
    } else if |names| > 1 {
      assert Join(names, ',') != "" by {
        assert |Join(names, ',')| >= 1;
      }
      SplitJoin(names, ',');
    }
  }

  /** `ParseList` inverts `Join` exactly on the lists that a TXT value can
      encode: comma-free names, other than the one-element list `[""]`. */
  lemma ParseJoinRoundTrip(names: seq<string>)
    ensures ParseList(Join(names, ',')) == names
        <==> names != [""] && forall i :: 0 <= i < |names| ==> ',' !in names[i]
  {
    if names != [""] && forall i :: 0 <= i < |names| ==> ',' !in names[i] {
      ParseJoin(names);
    }
  }

  /** A TXT value determines its list and vice versa. */
  lemma ParseListInjective(v: string, w: string)
    ensures ParseList(v) == ParseList(w) <==> v == w
  {
  }
}
