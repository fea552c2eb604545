/** Joining strings with a separator, two ways: the way the result text is
    meant to read, and the way the service accumulates it. */
module Text {

  /** A non-empty sequence is its head followed by its tail. */
  lemma HeadTail<T>(xs: seq<T>)
    requires |xs| > 0
    ensures [xs[0]] + xs[1..] == xs
  {
  }

  /** The parts with `sep` between consecutive ones. */
  function Join(parts: seq<string>, sep: string): string
  {
    if |parts| == 0 then ""
    else if |parts| == 1 then parts[0]
    else Join(parts[..|parts| - 1], sep) + sep + parts[|parts| - 1]
  }

  /** Every part followed by `sep`: what a loop holds after appending
      `part + sep` once per part. */
  function Terminated(parts: seq<string>, sep: string): string
  {
    if |parts| == 0 then ""
    else Terminated(parts[..|parts| - 1], sep) + parts[|parts| - 1] + sep
  }

  /** Appending one more part to the accumulator. */
  lemma TerminatedSnoc(parts: seq<string>, p: string, sep: string)
    ensures Terminated(parts + [p], sep) == Terminated(parts, sep) + p + sep
  {
    assert (parts + [p])[..|parts|] == parts;
  }

  /** The accumulator is the joined text plus one trailing separator, which
      is what trimming its last separator relies on. */
  lemma {:induction false} TerminatedIsJoin(parts: seq<string>, sep: string)
    requires |parts| > 0
    ensures Terminated(parts, sep) == Join(parts, sep) + sep
  {
    if |parts| > 1 {
      var init := parts[..|parts| - 1];
      TerminatedIsJoin(init, sep);
    }
  }

  /** An accumulator closed by a last part without a separator is the join. */
  lemma TerminatedThenLast(parts: seq<string>, sep: string)
    requires |parts| > 0
    ensures Terminated(parts[..|parts| - 1], sep) + parts[|parts| - 1] == Join(parts, sep)
  {
    if |parts| > 1 {
      TerminatedIsJoin(parts[..|parts| - 1], sep);
    }
  }

  /** One more part appended behind a fixed prefix, as the loops do. */
  lemma AppendPart(prefix: string, parts: seq<string>, p: string, sep: string)
    ensures prefix + Terminated(parts, sep) + p + sep == prefix + Terminated(parts + [p], sep)
  {
    TerminatedSnoc(parts, p, sep);
  }

  /** The last part appended behind a fixed prefix, followed by a closer. */
  lemma AppendLastPart(prefix: string, parts: seq<string>, close: string, sep: string)
    requires |parts| > 0
    ensures prefix + Terminated(parts[..|parts| - 1], sep) + parts[|parts| - 1] + close == prefix + Join(parts, sep) + close
  {
    TerminatedThenLast(parts, sep);
  }

  /** The join of several parts, followed by a closer and more text, split
      after its first part and separator. */
  lemma JoinFront(p: string, parts: seq<string>, sep: string, tail: string)
    requires |parts| > 0
    ensures Join([p] + parts, sep) + tail == p + (sep + (Join(parts, sep) + tail))
  {
    JoinCons(p, parts, sep);
  }

  /** The same split, for parts given as one sequence. */
  lemma JoinFrontAt(parts: seq<string>, sep: string, tail: string)
    requires |parts| > 1
    ensures Join(parts, sep) + tail == parts[0] + (sep + (Join(parts[1..], sep) + tail))
  {
    assert parts == [parts[0]] + parts[1..];
    JoinFront(parts[0], parts[1..], sep, tail);
  }

  /** Slicing off the accumulator's last one-character separator leaves the join. */
  lemma TrimSeparator(prefix: string, parts: seq<string>, sep: string)
    requires |parts| > 0 && |sep| == 1
    ensures var acc := prefix + Terminated(parts, sep); acc[..|acc| - 1] == prefix + Join(parts, sep)
  {
    TerminatedIsJoin(parts, sep);
    var acc := prefix + Terminated(parts, sep);
    assert acc == (prefix + Join(parts, sep)) + sep;
  }

  /** Join read from the front: the first part, the separator, the rest. */
  lemma {:induction false} JoinCons(p: string, parts: seq<string>, sep: string)
    requires |parts| > 0
    ensures Join([p] + parts, sep) == p + sep + Join(parts, sep)
  {
    var all := [p] + parts;
    if |parts| == 1 {
      assert all[..1] == [p];
    } else {
      var init := parts[..|parts| - 1];
      assert all[..|all| - 1] == [p] + init;
      JoinCons(p, init, sep);
    }
  }
}
