/** Reading the select result back. The service escapes nothing, so the text
    is read back by a parser of its own layout (the object and array forms of
    sections 4 and 5 of RFC 8259, without escapes), and the round trip holds
    for names and values free of the characters that layout uses. */
module Readback {
  import opened Envelope
  import opened Driver
  import opened Text
  import opened Materializer

  /** The characters the layout uses. */
  predicate Special(c: char)
  {
    c == '"' || c == ',' || c == '{' || c == '}' || c == '[' || c == ']' || c == ':'
  }

  /** A name or value that cannot be confused with the layout. */
  predicate Clean(s: string)
  {
    forall i :: 0 <= i < |s| ==> !Special(s[i])
  }

  /** The longest prefix of `s` free of layout characters, and the rest. */
  function Token(s: string): (r: (string, string))
    ensures r.0 + r.1 == s
    ensures Clean(r.0)
    ensures r.1 == [] || Special(r.1[0])
  {
    if |s| == 0 || Special(s[0]) then ([], s)
    else
      var r := Token(s[1..]);
      assert forall i :: 1 <= i < |r.0| + 1 ==> ([s[0]] + r.0)[i] == r.0[i - 1];
      ([s[0]] + r.0, r.1)
  }

  /** '"', a clean text, '"'; gives the text and what follows. */
  function Quoted(s: string): (r: Option<(string, string)>)
    ensures r.Some? ==> s == "\"" + r.value.0 + "\"" + r.value.1
  {
    if |s| > 0 && s[0] == '"' then
      var (t, rest) := Token(s[1..]);
      if |rest| > 0 && rest[0] == '"' then Some((t, rest[1..])) else None
    else None
  }

  /** One `"name":"value"` or `"name":value` pair; the quotes around the
      value tell the column kind. */
  function ParsePair(s: string): (r: Option<(Field, string)>)
    ensures r.Some? ==> |r.value.1| < |s|
  {
    match Quoted(s)
    case None => None
    case Some((name, rest)) =>
      if |rest| > 0 && rest[0] == ':' then
        var after := rest[1..];
        if |after| > 0 && after[0] == '"' then
          match Quoted(after)
          case None => None
          case Some((v, rest')) => Some((Field(name, Str, v), rest'))
        else
          var (v, rest') := Token(after);
          Some((Field(name, NonStr, v), rest'))
      else None
  }

  /** Pairs separated by ',' up to and including the closing '}'. */
  function ParseMembers(s: string): (r: Option<(seq<Field>, string)>)
    ensures r.Some? ==> |r.value.1| < |s|
    decreases |s|
  {
    match ParsePair(s)
    case None => None
    case Some((f, rest)) =>
      if |rest| > 0 && rest[0] == '}' then Some(([f], rest[1..]))
      else if |rest| > 0 && rest[0] == ',' then
        match ParseMembers(rest[1..])
        case None => None
        case Some((fs, rest')) => Some(([f] + fs, rest'))
      else None
  }

  /** One row object. */
  function ParseObject(s: string): (r: Option<(seq<Field>, string)>)
    ensures r.Some? ==> |r.value.1| < |s|
  {
    if |s| > 0 && s[0] == '{' then ParseMembers(s[1..]) else None
  }

  /** Objects separated by ',' up to and including the closing ']'. */
  function ParseElements(s: string): (r: Option<(seq<seq<Field>>, string)>)
    ensures r.Some? ==> |r.value.1| < |s|
    decreases |s|
  {
    match ParseObject(s)
    case None => None
    case Some((o, rest)) =>
      if |rest| > 0 && rest[0] == ']' then Some(([o], rest[1..]))
      else if |rest| > 0 && rest[0] == ',' then
        match ParseElements(rest[1..])
        case None => None
        case Some((os, rest')) => Some(([o] + os, rest'))
      else None
  }

  /** The whole result text: an array of at least one object, nothing after it. */
  function ParseArray(s: string): Option<seq<seq<Field>>>
  {
    if |s| > 0 && s[0] == '[' then
      match ParseElements(s[1..])
      case None => None
      case Some((records, rest)) => if rest == [] then Some(records) else None
    else None
  }

  // ---------------------------------------------------------------------
  // Round trip

  predicate CleanField(f: Field)
  {
    Clean(f.name) && Clean(f.value)
  }

  /** Records a select can read back: at least one column, all clean. */
  predicate Readable(records: seq<seq<Field>>)
  {
    forall k :: 0 <= k < |records| ==> |records[k]| > 0 && forall i :: 0 <= i < |records[k]| ==> CleanField(records[k][i])
  }

  /** A clean token stops exactly at the next layout character. */
  lemma {:induction false} TokenOf(w: string, rest: string)
    requires Clean(w) && (rest == [] || Special(rest[0]))
    ensures Token(w + rest) == (w, rest)
  {
    if |w| > 0 {
      assert (w + rest)[0] == w[0] && !Special(w[0]);
      assert (w + rest)[1..] == w[1..] + rest;
      TokenOf(w[1..], rest);
      assert [w[0]] + w[1..] == w;
    } else {
      assert w + rest == rest;
    }
  }

  lemma QuotedOf(w: string, rest: string)
    requires Clean(w)
    ensures Quoted("\"" + w + "\"" + rest) == Some((w, rest))
  {
    var s := "\"" + w + "\"" + rest;
    assert s[1..] == w + ("\"" + rest);
    TokenOf(w, "\"" + rest);
    assert ("\"" + rest)[1..] == rest;
  }

  /** A pair reads back as its field when a ',' or '}' follows it. */
  lemma PairOf(f: Field, rest: string)
    requires CleanField(f) && |rest| > 0 && (rest[0] == ',' || rest[0] == '}')
    ensures ParsePair(PairText(f) + rest) == Some((f, rest))
  {
    var after := (if f.kind == Str then "\"" + f.value + "\"" else f.value) + rest;
    assert PairText(f) + rest == "\"" + f.name + "\"" + (":" + after);
    QuotedOf(f.name, ":" + after);
    assert (":" + after)[1..] == after;
    if f.kind == Str {
      assert after == "\"" + f.value + "\"" + rest;
      QuotedOf(f.value, rest);
    } else {
      assert after == f.value + rest;
      TokenOf(f.value, rest);
      if |f.value| > 0 {
        assert after[0] == f.value[0];
      }
    }
  }

  lemma PairTextsCons(fs: seq<Field>)
    requires |fs| > 0
    ensures |PairTexts(fs)| == |fs| && PairTexts(fs)[0] == PairText(fs[0])
    ensures PairTexts(fs)[1..] == PairTexts(fs[1..])
  {
  }

  // Single steps of the parsers, so that the round-trip proofs below do
  // not unfold the parsers on long texts.

  lemma MembersLast(s: string, f: Field, rest: string)
    requires ParsePair(s) == Some((f, "}" + rest))
    ensures ParseMembers(s) == Some(([f], rest))
  {
    assert ("}" + rest)[1..] == rest;
  }

  lemma MembersNext(s: string, f: Field, more: string, fs: seq<Field>, rest: string)
    requires ParsePair(s) == Some((f, "," + more))
    requires ParseMembers(more) == Some((fs, rest))
    ensures ParseMembers(s) == Some(([f] + fs, rest))
  {
    assert ("," + more)[1..] == more;
  }

  lemma ElementsLast(s: string, o: seq<Field>, rest: string)
    requires ParseObject(s) == Some((o, "]" + rest))
    ensures ParseElements(s) == Some(([o], rest))
  {
    assert ("]" + rest)[1..] == rest;
  }

  lemma ElementsNext(s: string, o: seq<Field>, more: string, os: seq<seq<Field>>, rest: string)
    requires ParseObject(s) == Some((o, "," + more))
    requires ParseElements(more) == Some((os, rest))
    ensures ParseElements(s) == Some(([o] + os, rest))
  {
    assert ("," + more)[1..] == more;
  }

  /** The first of several pairs reads back, followed by ',' and the rest. */
  lemma FirstPair(fs: seq<Field>, rest: string)
    requires |fs| > 1 && CleanField(fs[0])
    ensures ParsePair(Join(PairTexts(fs), ",") + ("}" + rest))
         == Some((fs[0], "," + (Join(PairTexts(fs[1..]), ",") + ("}" + rest))))
  {
    PairTextsCons(fs);
    JoinFrontAt(PairTexts(fs), ",", "}" + rest);
    PairOf(fs[0], "," + (Join(PairTexts(fs[1..]), ",") + ("}" + rest)));
  }

  /** A single pair reads back, followed by the closing '}'. */
  lemma OnlyPair(fs: seq<Field>, rest: string)
    requires |fs| == 1 && CleanField(fs[0])
    ensures ParsePair(Join(PairTexts(fs), ",") + ("}" + rest)) == Some((fs[0], "}" + rest))
  {
    PairTextsCons(fs);
    PairOf(fs[0], "}" + rest);
  }

  /** The joined pairs and the closing '}' read back as the fields. */
  lemma {:induction false} MembersOf(fs: seq<Field>, rest: string)
    requires |fs| > 0 && forall i :: 0 <= i < |fs| ==> CleanField(fs[i])
    ensures ParseMembers(Join(PairTexts(fs), ",") + ("}" + rest)) == Some((fs, rest))
  {
    var s := Join(PairTexts(fs), ",") + ("}" + rest);
    if |fs| == 1 {
      OnlyPair(fs, rest);
      MembersLast(s, fs[0], rest);
      assert [fs[0]] == fs;
    } else {
      var tail := fs[1..];
      var more := Join(PairTexts(tail), ",") + ("}" + rest);
      FirstPair(fs, rest);
      assert forall i :: 0 <= i < |tail| ==> tail[i] == fs[i + 1];
      MembersOf(tail, rest);
      HeadTail(fs);
      MembersNext(s, fs[0], more, tail, rest);
    }
  }

  lemma ObjectOf(fs: seq<Field>, rest: string)
    requires |fs| > 0 && forall i :: 0 <= i < |fs| ==> CleanField(fs[i])
    ensures ParseObject(ObjectText(fs) + rest) == Some((fs, rest))
  {
    var s := ObjectText(fs) + rest;
    assert s == "{" + (Join(PairTexts(fs), ",") + ("}" + rest));
    assert s[1..] == Join(PairTexts(fs), ",") + ("}" + rest);
    MembersOf(fs, rest);
  }

  lemma ObjectTextsCons(records: seq<seq<Field>>)
    requires |records| > 0
    ensures |ObjectTexts(records)| == |records| && ObjectTexts(records)[0] == ObjectText(records[0])
    ensures ObjectTexts(records)[1..] == ObjectTexts(records[1..])
  {
  }

  lemma ReadableTail(records: seq<seq<Field>>)
    requires |records| > 0 && Readable(records)
    ensures Readable(records[1..]) && |records[0]| > 0
    ensures forall i :: 0 <= i < |records[0]| ==> CleanField(records[0][i])
  {
    assert forall k :: 0 <= k < |records| - 1 ==> records[1..][k] == records[k + 1];
  }

  /** The first of several objects reads back, followed by ',' and the rest. */
  lemma FirstObject(records: seq<seq<Field>>, rest: string)
    requires |records| > 1 && Readable(records)
    ensures ParseObject(Join(ObjectTexts(records), ",") + ("]" + rest))
         == Some((records[0], "," + (Join(ObjectTexts(records[1..]), ",") + ("]" + rest))))
  {
    ReadableTail(records);
    ObjectTextsCons(records);
    JoinFrontAt(ObjectTexts(records), ",", "]" + rest);
    ObjectOf(records[0], "," + (Join(ObjectTexts(records[1..]), ",") + ("]" + rest)));
  }

  /** A single object reads back, followed by the closing ']'. */
  lemma OnlyObject(records: seq<seq<Field>>, rest: string)
    requires |records| == 1 && Readable(records)
    ensures ParseObject(Join(ObjectTexts(records), ",") + ("]" + rest)) == Some((records[0], "]" + rest))
  {
    ReadableTail(records);
    ObjectTextsCons(records);
    ObjectOf(records[0], "]" + rest);
  }

  /** The joined objects and the closing ']' read back as the records. */
  lemma {:induction false} ElementsOf(records: seq<seq<Field>>, rest: string)
    requires |records| > 0 && Readable(records)
    ensures ParseElements(Join(ObjectTexts(records), ",") + ("]" + rest)) == Some((records, rest))
  {
    var s := Join(ObjectTexts(records), ",") + ("]" + rest);
    if |records| == 1 {
      OnlyObject(records, rest);
      ElementsLast(s, records[0], rest);
      assert [records[0]] == records;
    } else {
      var tail := records[1..];
      var more := Join(ObjectTexts(tail), ",") + ("]" + rest);
      FirstObject(records, rest);
      ReadableTail(records);
      ElementsOf(tail, rest);
      HeadTail(records);
      ElementsNext(s, records[0], more, tail, rest);
    }
  }

  /** Serializing records and parsing the text gives the records back. */
  lemma ArrayRoundTrip(records: seq<seq<Field>>)
    requires |records| > 0 && Readable(records)
    ensures ParseArray(ArrayText(ObjectTexts(records))) == Some(records)
  {
    var s := ArrayText(ObjectTexts(records));
    assert s[1..] == Join(ObjectTexts(records), ",") + ("]" + []);
    ElementsOf(records, []);
  }

  /** What a select with rows answers is OK, and its text reads back as the
      records of its rows. */
  lemma SelectRoundTrip(names: seq<string>, types: seq<string>, rows: seq<Row>)
    requires |types| == |names| > 0 && |rows| > 0 && AllScanned(rows, |names|)
    requires forall i :: 0 <= i < |names| ==> Clean(names[i])
    requires forall k, i :: 0 <= k < |rows| && 0 <= i < |names| ==> Clean(rows[k].cells[i])
    ensures Materialize(Cursor(Ok(names), Ok(types), rows)).status == StatusOk
    ensures ParseArray(Materialize(Cursor(Ok(names), Ok(types), rows)).result) == Some(Records(names, Classify(types), rows))
  {
    RowsGiveArray(names, types, rows);
    ArrayRoundTrip(Records(names, Classify(types), rows));
  }

  /** Spelled out: one record per row, in cursor order, each with the
      columns' names in order, the row's values, and quotes exactly on the
      VARCHAR columns. */
  lemma SelectReadsBack(names: seq<string>, types: seq<string>, rows: seq<Row>, k: nat, i: nat)
    requires |types| == |names| > 0 && |rows| > 0 && AllScanned(rows, |names|)
    requires forall i :: 0 <= i < |names| ==> Clean(names[i])
    requires forall k, i :: 0 <= k < |rows| && 0 <= i < |names| ==> Clean(rows[k].cells[i])
    requires k < |rows| && i < |names|
    ensures ParseArray(Materialize(Cursor(Ok(names), Ok(types), rows)).result).Some?
    ensures var records := ParseArray(Materialize(Cursor(Ok(names), Ok(types), rows)).result).value;
      && |records| == |rows| && |records[k]| == |names|
      && records[k][i].name == names[i]
      && records[k][i].value == rows[k].cells[i]
      && (records[k][i].kind == Str <==> types[i] == TextTypeName)
  {
    SelectRoundTrip(names, types, rows);
  }
}
