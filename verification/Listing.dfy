/**
 Directory listings: the firmware's printer (emmc_fs.c), which writes one line a file into a fixed buffer,
 and the host's parser (models.py), which reads names and sizes back.
 */
module Listing {
  import opened Bytes

  const TAB: Byte := 9
  const NEWLINE: Byte := 10
  const MARGIN: nat := 16

  type Size = x: int | 0 <= x < 0x1_0000_0000

  datatype Entry = Entry(name: seq<Byte>, size: int)

  /** What reading the directory yields; the end is the end of the sequence. */
  datatype Item = File(name: seq<Byte>, size: Size) | Folder | Broken

  datatype Status = Ok | BadParameter | NoDirectory | ReadFailed | BufferSmall

  // ----- what is printed -----

  /** `%lu`. */
  function Decimal(n: nat): (digits: seq<Byte>)
    ensures |digits| >= 1
  {
    if n < 10 then [(48 + n) as Byte] else Decimal(n / 10) + [(48 + n % 10) as Byte]
  }

  function Body(name: seq<Byte>, size: nat): seq<Byte> {
    name + [TAB] + Decimal(size)
  }

  function Line(name: seq<Byte>, size: nat): (line: seq<Byte>)
    ensures |line| > |name| + 1
  {
    Body(name, size) + [NEWLINE]
  }

  /** "a.txt", a tab, "120", a line feed. */
  lemma SomeLine()
    ensures Line([97, 46, 116, 120, 116], 120) == [97, 46, 116, 120, 116, 9, 49, 50, 48, 10]
  {
    assert Decimal(12) == [49, 50];
    assert Decimal(120) == [49, 50] + [48];
  }

  /** The lines of these items, folders left out. */
  function Printed(items: seq<Item>): seq<Byte> {
    if items == [] then []
    else
      var n := |items| - 1;
      Printed(items[..n]) + (if items[n].File? then Line(items[n].name, items[n].size) else [])
  }

  /** The last line break is overwritten. */
  function WithoutLast(text: seq<Byte>): seq<Byte> {
    if text == [] then [] else text[..|text| - 1]
  }

  /** Whether item `i` stops the printer for want of room. */
  predicate TooBig(items: seq<Item>, size: nat, i: nat)
    requires i < |items|
  {
    items[i].File? && |Printed(items[..i])| + |items[i].name| + MARGIN >= size
  }

  /** The first item, if any, at which the printer stops. */
  function StopsAt(items: seq<Item>, size: nat, i: nat): (k: nat)
    requires i <= |items|
    ensures i <= k <= |items|
    ensures k < |items| ==> items[k].Broken? || TooBig(items, size, k)
    ensures forall j :: i <= j < k ==> !items[j].Broken? && !TooBig(items, size, j)
    decreases |items| - i
  {
    if i == |items| || items[i].Broken? || TooBig(items, size, i) then i else StopsAt(items, size, i + 1)
  }

  lemma PrintedNext(items: seq<Item>, i: nat)
    requires i < |items|
    ensures Printed(items[..i + 1])
         == Printed(items[..i]) + (if items[i].File? then Line(items[i].name, items[i].size) else [])
  {
    assert items[..i + 1][..i] == items[..i];
  }

  function Pow10(k: nat): nat {
    if k == 0 then 1 else 10 * Pow10(k - 1)
  }

  lemma {:induction false} DecimalLength(n: nat, k: nat)
    requires n < Pow10(k) && k >= 1
    ensures |Decimal(n)| <= k
    decreases k
  {
    assert Pow10(1) == 10;
    if n >= 10 && k > 1 { DecimalLength(n / 10, k - 1); }
  }

  /** The margin is enough for the tab, ten digits, the line break and the terminator. */
  lemma LineFits(name: seq<Byte>, size: Size)
    ensures |Line(name, size)| <= |name| + 12
  {
    assert Pow10(5) == 100000;
    assert Pow10(10) == 10000000000;
    DecimalLength(size, 10);
  }

  // ----- the printer -----

  /** `memcpy` into the buffer, behind what is there already. */
  method Put(buffer: array<Byte>, at: nat, bytes: seq<Byte>)
    requires at + |bytes| <= buffer.Length
    modifies buffer
    ensures buffer[..at + |bytes|] == old(buffer[..at]) + bytes
  {
    forall i | 0 <= i < |bytes| {
      buffer[at + i] := bytes[i];
    }
  }

  /** `snprintf` of a text into `room` bytes: cut short when it does not fit, always terminated. */
  method Print(buffer: array<Byte>, at: nat, room: nat, text: seq<Byte>) returns (length: nat)
    requires 0 < room && at + room <= buffer.Length
    modifies buffer
    ensures length == |text|
    ensures buffer[..at] == old(buffer[..at])
    ensures |text| < room ==> buffer[..at + |text|] == old(buffer[..at]) + text
  {
    var kept := if |text| < room then text else text[..room - 1];
    Put(buffer, at, kept);
    ghost var written := buffer[..at + |kept|];
    assert written[..at] == old(buffer[..at]) && written[..at] == buffer[..at];
    buffer[at + |kept|] := 0;
    assert buffer[..at + |kept|] == written;
    length := |text|;
  }

  lemma JoinedLine(before: seq<Byte>, name: seq<Byte>, size: Size)
    ensures before + name + [TAB] + (Decimal(size) + [NEWLINE]) == before + Line(name, size)
  {
    hide Decimal;
  }

  /** One line, written behind what is there already. */
  method PrintLine(buffer: array<Byte>, used: nat, name: seq<Byte>, size: Size) returns (now: nat)
    requires used + |name| + MARGIN < buffer.Length
    modifies buffer
    ensures now == used + |Line(name, size)| && now < buffer.Length
    ensures buffer[..now] == old(buffer[..used]) + Line(name, size)
  {
    hide Decimal;
    LineFits(name, size);
    JoinedLine(buffer[..used], name, size);
    Put(buffer, used, name);
    now := used + |name|;
    ghost var named := buffer[..now];
    buffer[now] := TAB;
    now := now + 1;
    assert buffer[..now] == named + [TAB];
    var printed := Print(buffer, now, buffer.Length - now, Decimal(size) + [NEWLINE]);
    now := now + printed;
  }

  /**
   `EmmcFs_ListFiles`. It stops at the first item that is unreadable or may not fit; otherwise the buffer
   holds every line, complete, without the last line break.
   */
  method ListFiles(buffer: array<Byte>, opens: bool, items: seq<Item>) returns (status: Status, used: nat)
    modifies buffer
    ensures buffer.Length == 0 ==> status == BadParameter
    ensures buffer.Length > 0 && !opens ==> status == NoDirectory && used == 0
    ensures buffer.Length > 0 && opens ==>
              var k := StopsAt(items, buffer.Length, 0);
              if k == |items| then
                status == Ok && used <= buffer.Length && buffer[..used] == WithoutLast(Printed(items))
              else if items[k].Broken? then status == ReadFailed && used == 0
              else status == BufferSmall && used == |Printed(items[..k])|
  {
    used := 0;
    if buffer.Length == 0 {
      return BadParameter, 0;
    }
    buffer[0] := 0;
    if !opens {
      return NoDirectory, 0;
    }
    var i := 0;
    while i < |items|
      invariant i <= |items| && used < buffer.Length
      invariant StopsAt(items, buffer.Length, 0) == StopsAt(items, buffer.Length, i)
      invariant buffer[..used] == Printed(items[..i])
    {
      PrintedNext(items, i);
      match items[i] {
        case Broken => return ReadFailed, 0;
        case Folder =>
        case File(name, size) =>
          if used + |name| + MARGIN >= buffer.Length {
            return BufferSmall, used;
          }
          used := PrintLine(buffer, used, name, size);
      }
      i := i + 1;
    }
    assert items[..i] == items;
    ghost var text := Printed(items);
    if used > 0 {
      buffer[used - 1] := 0;
      used := used - 1;
      assert buffer[..used] == text[..used];
    } else {
      buffer[0] := 0;
    }
    status := Ok;
  }

  // ----- what is read back -----

  /** The line breaks of `str.splitlines` among the octets of ASCII text. */
  predicate IsBreak(c: Byte) {
    10 <= c <= 13 || 28 <= c <= 30
  }

  /** The text between line breaks; a break after a break gives an empty piece. */
  function Pieces(text: seq<Byte>): (pieces: seq<seq<Byte>>)
    ensures |pieces| >= 1
  {
    if text == [] then [[]]
    else
      var n := |text| - 1;
      var before := Pieces(text[..n]);
      var last := |before| - 1;
      if IsBreak(text[n]) then before + [[]] else before[..last] + [before[last] + [text[n]]]
  }

  predicate IsSpace(c: Byte) {
    9 <= c <= 13 || 28 <= c <= 32
  }

  /** `str.strip`. */
  function Stripped(text: seq<Byte>): seq<Byte>
    decreases |text|
  {
    if text == [] then []
    else if IsSpace(text[0]) then Stripped(text[1..])
    else if IsSpace(text[|text| - 1]) then Stripped(text[..|text| - 1])
    else text
  }

  predicate IsDigit(c: Byte) {
    48 <= c <= 57
  }

  /** Digits, with single underscores allowed between them. */
  predicate Digits(text: seq<Byte>)
    decreases |text|
  {
    && text != [] && IsDigit(text[|text| - 1])
    && (|text| == 1
        || Digits(text[..|text| - 1])
        || (|text| > 2 && text[|text| - 2] == 95 && Digits(text[..|text| - 2])))
  }

  function Value(text: seq<Byte>): nat {
    if text == [] then 0
    else if IsDigit(text[|text| - 1]) then 10 * Value(text[..|text| - 1]) + (text[|text| - 1] as int - 48)
    else Value(text[..|text| - 1])
  }

  /** `int(...)`, with 0 where it raises. */
  function ReadSize(text: seq<Byte>): int {
    var t := Stripped(text);
    if Digits(t) then Value(t)
    else if t != [] && t[0] == 43 && Digits(t[1..]) then Value(t[1..])
    else if t != [] && t[0] == 45 && Digits(t[1..]) then -(Value(t[1..]) as int)
    else 0
  }

  function FirstTab(line: seq<Byte>): (i: nat)
    ensures i <= |line| && (i < |line| ==> line[i] == TAB) && TAB !in line[..i]
  {
    if line == [] then 0
    else if line[0] == TAB then 0
    else
      var i := FirstTab(line[1..]);
      assert line[..1 + i] == [line[0]] + line[1..][..i];
      1 + i
  }

  function ReadLine(line: seq<Byte>): Entry {
    var i := FirstTab(line);
    if i < |line| then Entry(line[..i], ReadSize(line[i + 1..])) else Entry(line, 0)
  }

  /** The entries of the non-empty lines. */
  function ReadLines(lines: seq<seq<Byte>>): seq<Entry> {
    if lines == [] then []
    else
      var n := |lines| - 1;
      if lines[n] == [] then ReadLines(lines[..n]) else ReadLines(lines[..n]) + [ReadLine(lines[n])]
  }

  function ReadListing(data: seq<Byte>): seq<Entry> {
    ReadLines(Pieces(data))
  }

  /** `FileListResponse.entries`. */
  method Entries(data: seq<Byte>) returns (result: seq<Entry>)
    ensures result == ReadListing(data)
  {
    result := [];
    if data == [] {
      return;
    }
    var lines := Pieces(data);
    var i := 0;
    while i < |lines|
      invariant i <= |lines| && result == ReadLines(lines[..i])
    {
      assert lines[..i + 1][..i] == lines[..i];
      var line := lines[i];
      if line != [] {
        var tab := FirstTab(line);
        if tab < |line| {
          result := result + [Entry(line[..tab], ReadSize(line[tab + 1..]))];
        } else {
          result := result + [Entry(line, 0)];
        }
      }
      i := i + 1;
    }
    assert lines[..i] == lines;
  }

  // ----- the round trip -----

  /** Printable ASCII: no tab and no line break. */
  predicate Printable(name: seq<Byte>) {
    name != [] && forall c :: c in name ==> 32 <= c <= 126
  }

  predicate Listable(items: seq<Item>) {
    forall item :: item in items ==> !item.Broken? && (item.File? ==> Printable(item.name))
  }

  /** The files among the items. */
  function Files(items: seq<Item>): seq<Entry> {
    if items == [] then []
    else
      var n := |items| - 1;
      Files(items[..n]) + (if items[n].File? then [Entry(items[n].name, items[n].size)] else [])
  }

  lemma {:induction false} DecimalDigits(n: nat)
    ensures Digits(Decimal(n)) && Value(Decimal(n)) == n
    ensures forall c :: c in Decimal(n) ==> IsDigit(c)
  {
    var d := Decimal(n);
    if n < 10 {
      assert d[..0] == [];
    } else {
      DecimalDigits(n / 10);
      assert d[..|d| - 1] == Decimal(n / 10);
    }
  }

  lemma SizeReadsBack(n: nat)
    ensures ReadSize(Decimal(n)) == n
  {
    DecimalDigits(n);
    var d := Decimal(n);
    assert d[0] in d && d[|d| - 1] in d;
    assert Stripped(d) == d;
  }

  lemma {:induction false} TabAfterName(name: seq<Byte>, rest: seq<Byte>)
    requires TAB !in name
    ensures FirstTab(name + [TAB] + rest) == |name|
  {
    var line := name + [TAB] + rest;
    if name != [] {
      assert line[0] == name[0] && name[0] in name;
      assert line[1..] == name[1..] + [TAB] + rest;
      TabAfterName(name[1..], rest);
    }
  }

  lemma LineReadsBack(name: seq<Byte>, size: nat)
    requires Printable(name)
    ensures ReadLine(Body(name, size)) == Entry(name, size)
  {
    TabAfterName(name, Decimal(size));
    SizeReadsBack(size);
    var body := Body(name, size);
    assert body[..|name|] == name && body[|name| + 1..] == Decimal(size);
  }

  /** Text without a line break extends the last piece. */
  lemma {:induction false} PiecesExtend(text: seq<Byte>, more: seq<Byte>)
    requires forall c :: c in more ==> !IsBreak(c)
    ensures var before := Pieces(text);
            var last := |before| - 1;
            Pieces(text + more) == before[..last] + [before[last] + more]
    decreases |more|
  {
    var before := Pieces(text);
    var last := |before| - 1;
    if more == [] {
      assert text + more == text && before[last] + more == before[last];
    } else {
      var n := |more| - 1;
      assert (text + more)[..|text + more| - 1] == text + more[..n];
      assert more[n] in more;
      PiecesExtend(text, more[..n]);
      assert (before[last] + more[..n]) + [more[n]] == before[last] + more;
    }
  }

  lemma PiecesBreak(text: seq<Byte>)
    ensures Pieces(text + [NEWLINE]) == Pieces(text) + [[]]
  {
    assert (text + [NEWLINE])[..|text|] == text;
  }

  /** The lines, without their line breaks. */
  function Bodies(items: seq<Item>): seq<seq<Byte>> {
    if items == [] then []
    else
      var n := |items| - 1;
      Bodies(items[..n]) + (if items[n].File? then [Body(items[n].name, items[n].size)] else [])
  }

  lemma BodyUnbroken(name: seq<Byte>, size: nat)
    requires Printable(name)
    ensures forall c :: c in Body(name, size) ==> !IsBreak(c)
  {
    DecimalDigits(size);
  }

  lemma LineAddsPiece(before: seq<Byte>, bodies: seq<seq<Byte>>, body: seq<Byte>)
    requires Pieces(before) == bodies + [[]] && forall c :: c in body ==> !IsBreak(c)
    ensures Pieces(before + (body + [NEWLINE])) == (bodies + [body]) + [[]]
  {
    PiecesExtend(before, body);
    PiecesBreak(before + body);
    hide Pieces;
    assert before + (body + [NEWLINE]) == (before + body) + [NEWLINE];
    assert (bodies + [[]])[..|bodies|] == bodies && [] + body == body;
  }

  lemma {:induction false} PrintedPieces(items: seq<Item>)
    requires Listable(items)
    ensures Pieces(Printed(items)) == Bodies(items) + [[]]
  {
    if items != [] {
      var n := |items| - 1;
      assert items[n] in items;
      PrintedPieces(items[..n]);
      hide Pieces, IsBreak, Body;
      if items[n].File? {
        BodyUnbroken(items[n].name, items[n].size);
        LineAddsPiece(Printed(items[..n]), Bodies(items[..n]), Body(items[n].name, items[n].size));
      } else {
        assert Printed(items) == Printed(items[..n]) && Bodies(items) == Bodies(items[..n]);
      }
    }
  }

  lemma {:induction false} BodiesReadBack(items: seq<Item>)
    requires Listable(items)
    ensures ReadLines(Bodies(items)) == Files(items)
  {
    if items != [] {
      var n := |items| - 1;
      assert items[n] in items;
      BodiesReadBack(items[..n]);
      if items[n].File? {
        LineReadsBack(items[n].name, items[n].size);
        assert Bodies(items)[..|Bodies(items)| - 1] == Bodies(items[..n]);
        assert Body(items[n].name, items[n].size) != [];
      } else {
        assert Bodies(items) == Bodies(items[..n]) && Files(items) == Files(items[..n]);
      }
    }
  }

  lemma {:induction false} PrintedEnds(items: seq<Item>)
    ensures Printed(items) != [] ==> Printed(items)[|Printed(items)| - 1] == NEWLINE
  {
    if items != [] { PrintedEnds(items[..|items| - 1]); }
  }

  /** For names of printable ASCII, reading a printed listing gives back every file, in order, with its size. */
  lemma ListingRoundTrip(items: seq<Item>)
    requires Listable(items)
    ensures ReadListing(WithoutLast(Printed(items))) == Files(items)
  {
    var text := Printed(items);
    PrintedPieces(items);
    BodiesReadBack(items);
    if text == [] {
      assert Pieces(text) == [[]];
      assert |Bodies(items)| == 0;
    } else {
      PrintedEnds(items);
      var cut := WithoutLast(text);
      assert text == cut + [NEWLINE];
      PiecesBreak(cut);
      assert Pieces(cut) == (Pieces(cut) + [[]])[..|Pieces(cut)|] == Bodies(items);
    }
  }
}
