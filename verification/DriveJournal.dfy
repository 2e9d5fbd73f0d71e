/**
 * The NDJSON journal file: appending lines and reading them back with a torn tail
 * (apps/drive/src/storage/journal.ts).  The JSON codec is a pair of parameters.
 */
module DriveJournal {
  import opened Prelude

  datatype Read<+E> = Lines(lines: seq<E>, torn: bool) | Corrupt(line: nat)

  /** The parts with a newline between each and the next. */
  function Joined(parts: seq<string>): string {
    if |parts| == 0 then "" else if |parts| == 1 then parts[0] else parts[0] + "\n" + Joined(parts[1..])
  }

  /** JavaScript's split('\n'). */
  function Split(s: string): (parts: seq<string>)
    ensures |parts| >= 1
  {
    if s == "" then [""]
    else
      var rest := Split(s[1..]);
      if s[0] == '\n' then [""] + rest else [[s[0]] + rest[0]] + rest[1..]
  }

  ghost predicate Unbroken(parts: seq<string>) {
    forall i | 0 <= i < |parts| :: '\n' !in parts[i]
  }

  lemma {:induction false} SplitJoins(s: string)
    ensures Joined(Split(s)) == s && Unbroken(Split(s))
  {
    if s != "" {
      SplitJoins(s[1..]);
      assert [s[0]] + s[1..] == s;
    }
  }

  /** Reading the parts from the `i`-th on: blanks skipped, only the final part may fail to parse. */
  function Scan<E>(parts: seq<string>, i: nat, parse: string -> Option<E>): Read<E>
    requires i <= |parts|
    decreases |parts| - i
  {
    if i == |parts| then Lines([], false)
    else if parts[i] == "" then Scan(parts, i + 1, parse)
    else
      match parse(parts[i])
      case None => if i == |parts| - 1 then Lines([], true) else Corrupt(i)
      case Some(e) =>
        match Scan(parts, i + 1, parse)
        case Corrupt(j) => Corrupt(j)
        case Lines(rest, torn) => Lines([e] + rest, torn)
  }

  function ReadText<E>(raw: string, parse: string -> Option<E>): Read<E> {
    Scan(Split(raw), 0, parse)
  }

  /** What earlier lines contribute in front of what the rest of a file reads as. */
  function Prepend<E>(lines: seq<E>, r: Read<E>): Read<E> {
    match r
    case Corrupt(j) => Corrupt(j)
    case Lines(rest, torn) => Lines(lines + rest, torn)
  }

  method SplitText(raw: string) returns (parts: seq<string>)
    ensures parts == Split(raw)
    ensures Joined(parts) == raw && Unbroken(parts)
  {
    parts := [""];
    var i := |raw|;
    while i > 0
      invariant 0 <= i <= |raw|
      invariant parts == Split(raw[i..])
    {
      i := i - 1;
      assert raw[i..][1..] == raw[i + 1..];
      parts := if raw[i] == '\n' then [""] + parts else [[raw[i]] + parts[0]] + parts[1..];
    }
    assert raw[0..] == raw;
    SplitJoins(raw);
  }

  /** A missing file reads as an empty one. */
  method ReadNdjson<E>(file: Option<string>, parse: string -> Option<E>) returns (r: Read<E>)
    ensures r == if file.None? then Lines([], false) else ReadText(file.value, parse)
  {
    hide Unbroken, Joined, Split;
    if file.None? {
      return Lines([], false);
    }
    var parts := SplitText(file.value);
    var lines: seq<E> := [];
    var torn := false;
    var i := 0;
    while i < |parts|
      invariant 0 <= i <= |parts|
      invariant torn ==> i == |parts|
      invariant ReadText(file.value, parse) ==
                Prepend(lines, if torn then Lines([], true) else Scan(parts, i, parse))
    {
      if parts[i] != "" {
        var parsed := parse(parts[i]);
        if parsed.Some? {
          assert forall rest: seq<E> :: lines + ([parsed.value] + rest) == (lines + [parsed.value]) + rest;
          lines := lines + [parsed.value];
        } else if i == |parts| - 1 {
          torn := true;
        } else {
          return Corrupt(i);
        }
      }
      i := i + 1;
    }
    assert lines + [] == lines;
    return Lines(lines, torn);
  }

  // ----- writing ------------------------------------------------------------------------------------

  /** What the journal relies on in its codec: one line an event, and no proper prefix of one parses. */
  ghost predicate Codec<E(!new)>(encode: E -> string, parse: string -> Option<E>) {
    forall e: E ::
      && encode(e) != ""
      && '\n' !in encode(e)
      && parse(encode(e)) == Some(e)
      && forall k | 0 < k < |encode(e)| :: parse(encode(e)[..k]) == None
  }

  function FileOf<E>(events: seq<E>, encode: E -> string): string {
    if events == [] then "" else encode(events[0]) + "\n" + FileOf(events[1..], encode)
  }

  lemma FileAppend<E>(events: seq<E>, e: E, encode: E -> string)
    ensures FileOf(events + [e], encode) == FileOf(events, encode) + encode(e) + "\n"
  {
    if events == [] {
      assert events + [e] == [e];
    } else {
      assert (events + [e])[1..] == events[1..] + [e];
      FileAppend(events[1..], e, encode);
    }
  }

  lemma SplitPlain(text: string)
    requires '\n' !in text
    ensures Split(text) == [text]
  {
    if text != "" {
      SplitPlain(text[1..]);
      assert [text[0]] + text[1..] == text;
    }
  }

  lemma SplitLine(text: string, rest: string)
    requires '\n' !in text
    ensures Split(text + "\n" + rest) == [text] + Split(rest)
  {
    var whole := text + "\n" + rest;
    if text == "" {
      assert whole[1..] == rest;
    } else {
      SplitLine(text[1..], rest);
      assert whole[1..] == text[1..] + "\n" + rest;
      assert [text[0]] + text[1..] == text;
    }
  }

  /** Cutting is the only way back from joined parts without newlines. */
  lemma {:induction false} SplitUnique(parts: seq<string>)
    requires |parts| >= 1 && Unbroken(parts)
    ensures Split(Joined(parts)) == parts
  {
    if |parts| == 1 {
      SplitPlain(parts[0]);
    } else {
      assert forall i | 0 <= i < |parts[1..]| :: parts[1..][i] == parts[i + 1];
      SplitUnique(parts[1..]);
      SplitLine(parts[0], Joined(parts[1..]));
      assert parts == [parts[0]] + parts[1..];
    }
  }

  lemma ScanShift<E>(first: string, parts: seq<string>, i: nat, parse: string -> Option<E>)
    requires i <= |parts|
    ensures match Scan(parts, i, parse)
            case Lines(lines, torn) => Scan([first] + parts, i + 1, parse) == Lines(lines, torn)
            case Corrupt(j) => Scan([first] + parts, i + 1, parse) == Corrupt(j + 1)
    decreases |parts| - i
  {
    if i < |parts| {
      ScanShift(first, parts, i + 1, parse);
    }
  }

  /** One well-formed line in front of a file is one event in front of what the file reads as. */
  lemma ReadLine<E(!new)>(e: E, rest: string, encode: E -> string, parse: string -> Option<E>)
    requires Codec(encode, parse)
    ensures match ReadText(rest, parse)
            case Lines(lines, torn) => ReadText(encode(e) + "\n" + rest, parse) == Lines([e] + lines, torn)
            case Corrupt(j) => ReadText(encode(e) + "\n" + rest, parse) == Corrupt(j + 1)
  {
    SplitLine(encode(e), rest);
    ScanShift(encode(e), Split(rest), 0, parse);
  }

  lemma ReadPartial<E>(text: string, parse: string -> Option<E>)
    requires '\n' !in text
    ensures ReadText(text, parse) ==
            if text == "" then Lines([], false)
            else match parse(text) case None => Lines([], true) case Some(e) => Lines([e], false)
  {
    SplitPlain(text);
    assert Scan([text], 1, parse) == Lines([], false);
    assert forall e: E :: [e] + [] == [e];
  }

  // ----- reading any prefix of what was written ---------------------------------------------------------

  /** How many events lie wholly (their newline aside) in the first `k` characters, and whether more remains. */
  function Cut<E>(events: seq<E>, encode: E -> string, k: nat): (nat, bool) {
    if events == [] then (0, false)
    else if k < |encode(events[0])| then (0, k > 0)
    else if k == |encode(events[0])| then (1, false)
    else var (n, torn) := Cut(events[1..], encode, k - |encode(events[0])| - 1); (n + 1, torn)
  }

  lemma {:induction false} CutMeans<E>(events: seq<E>, encode: E -> string, k: nat)
    requires k <= |FileOf(events, encode)|
    ensures var (n, torn) := Cut(events, encode, k);
            && n <= |events|
            && (forall i | 1 <= i <= |events| :: i <= n <==> |FileOf(events[..i], encode)| - 1 <= k)
            && (torn <==> |FileOf(events[..n], encode)| < k)
  {
    if events != [] {
      var head := |encode(events[0])|;
      forall i | 1 <= i <= |events|
        ensures |FileOf(events[..i], encode)| == head + 1 + |FileOf(events[1..][..i - 1], encode)|
      {
        assert events[..i][1..] == events[1..][..i - 1];
      }
      if k > head {
        CutMeans(events[1..], encode, k - head - 1);
      }
    }
  }

  /**
   * Whatever prefix of the file survives, the reader returns exactly the events whose text was
   * fully written, in order, and reports a torn tail exactly when part of another one remains.
   */
  lemma {:induction false} ReadsPrefix<E(!new)>(events: seq<E>, encode: E -> string, parse: string -> Option<E>, k: nat)
    requires Codec(encode, parse) && k <= |FileOf(events, encode)|
    ensures Cut(events, encode, k).0 <= |events|
    ensures ReadText(FileOf(events, encode)[..k], parse) ==
            Lines(events[..Cut(events, encode, k).0], Cut(events, encode, k).1)
  {
    hide ReadText;
    var file := FileOf(events, encode);
    if events == [] {
      ReadPartial(file[..k], parse);
    } else {
      var text := encode(events[0]);
      if k <= |text| {
        assert file[..k] == text[..k];
        assert text[..|text|] == text;
        ReadPartial(text[..k], parse);
      } else {
        var rest := FileOf(events[1..], encode)[..k - |text| - 1];
        assert file[..k] == text + "\n" + rest;
        ReadsPrefix(events[1..], encode, parse, k - |text| - 1);
        ReadLine(events[0], rest, encode, parse);
        var n := Cut(events[1..], encode, k - |text| - 1).0;
        assert [events[0]] + events[1..][..n] == events[..n + 1];
      }
    }
  }

  lemma {:induction false} ReadAfter<E(!new)>(events: seq<E>, tail: string, encode: E -> string,
                                              parse: string -> Option<E>)
    requires Codec(encode, parse)
    ensures match ReadText(tail, parse)
            case Lines(lines, torn) => ReadText(FileOf(events, encode) + tail, parse) == Lines(events + lines, torn)
            case Corrupt(j) => ReadText(FileOf(events, encode) + tail, parse) == Corrupt(|events| + j)
  {
    if events == [] {
      assert FileOf(events, encode) + tail == tail;
    } else {
      var rest := FileOf(events[1..], encode) + tail;
      assert FileOf(events, encode) + tail == encode(events[0]) + "\n" + rest;
      ReadAfter(events[1..], tail, encode, parse);
      ReadLine(events[0], rest, encode, parse);
      assert forall lines: seq<E> :: [events[0]] + (events[1..] + lines) == events + lines;
    }
  }

  /**
   * Appending after a torn tail glues the new line to it: the reader then throws on the whole file
   * exactly when the glued text does not parse.
   */
  lemma AppendAfterTornTail<E(!new)>(events: seq<E>, torn: string, e: E, encode: E -> string,
                                     parse: string -> Option<E>)
    requires Codec(encode, parse) && torn != "" && '\n' !in torn
    ensures ReadText(FileOf(events, encode) + (torn + encode(e) + "\n"), parse).Corrupt? <==>
            parse(torn + encode(e)).None?
  {
    var glued := torn + encode(e);
    assert glued + "\n" == glued + "\n" + "";
    SplitLine(glued, "");
    var parts := Split(glued + "\n");
    assert parts == [glued, ""];
    assert Scan(parts, 1, parse) == Scan(parts, 2, parse);
    ReadAfter(events, glued + "\n", encode, parse);
  }
}
