/**
  Reading Mach-O and FAT headers without developer tools
  (desktop/scripts/check_meeting_worker_bundle.py, macho_arm64 and the version test).

  A file is its bytes. What a file may look like is given by syntax trees (a table of
  architectures, an image, its load commands) with printers; the reader is proved to accept
  exactly the printed forms and to report what they were printed from.
 */
module MachO {
  import opened Common
  import Utf8 = Utf8Spans

  type Byte = Utf8.Byte
  type Name = seq<Utf8.Scalar>

  const ARM64 := 0x0100_000C
  const MAX_COMMAND_BYTES := 16 * 1024 * 1024
  const MACOS := 1

  datatype Fault =
    | TruncatedFatHeader
    | BadArchitectureCount
    | TruncatedTable
    | SliceEscapes
    | NotOneArm64Slice
    | NotMachO
    | TruncatedHeader
    | BadHeader
    | TruncatedCommands
    | TruncatedCommandHeader
    | BadCommandSize
    | TruncatedNameCommand
    | BadNameOffset
    | NameNotUtf8
    | TruncatedVersion
    | NotForMacOS
    | NoVersionOrBadCount

  // ----- Fixed-width integers -----

  function Limit(n: nat): nat {
    if n == 0 then 1 else 0x100 * Limit(n - 1)
  }

  /** The least significant byte, and the others. */
  function Low(bs: seq<Byte>, little: bool): Byte
    requires bs != []
  {
    if little then bs[0] else bs[|bs| - 1]
  }

  function High(bs: seq<Byte>, little: bool): seq<Byte>
    requires bs != []
  {
    if little then bs[1..] else bs[..|bs| - 1]
  }

  function Join(low: Byte, high: seq<Byte>, little: bool): seq<Byte> {
    if little then [low] + high else high + [low]
  }

  function Number(bs: seq<Byte>, little: bool): nat
    decreases |bs|
  {
    if bs == [] then 0 else Low(bs, little) + 0x100 * Number(High(bs, little), little)
  }

  function Bytes(v: nat, n: nat, little: bool): (bs: seq<Byte>)
    ensures |bs| == n
    decreases n, v
  {
    if n == 0 then [] else Join(v % 0x100, Bytes(v / 0x100, n - 1, little), little)
  }

  lemma JoinIff(bs: seq<Byte>, low: Byte, high: seq<Byte>, little: bool)
    requires bs != []
    ensures bs == Join(low, high, little) <==> Low(bs, little) == low && High(bs, little) == high
  {
    assert bs == Join(Low(bs, little), High(bs, little), little);
    var joined := Join(low, high, little);
    assert Low(joined, little) == low && High(joined, little) == high;
  }

  lemma DigitIff(low: Byte, high: nat, v: nat)
    ensures low as int + 0x100 * high == v <==> low as int == v % 0x100 && high == v / 0x100
  {
  }

  lemma LimitStep(v: nat, n: nat)
    requires n > 0
    ensures v < Limit(n) <==> v / 0x100 < Limit(n - 1)
  {
  }

  /** An integer that fits its width has one encoding, and every encoding is of one integer. */
  lemma {:induction false} NumberIffBytes(bs: seq<Byte>, v: nat, little: bool)
    ensures Number(bs, little) == v <==> v < Limit(|bs|) && bs == Bytes(v, |bs|, little)
    decreases |bs|
  {
    var n := |bs|;
    if n != 0 {
      var high := High(bs, little);
      NumberIffBytes(high, v / 0x100, little);
      DigitIff(Low(bs, little), Number(high, little), v);
      JoinIff(bs, v % 0x100, Bytes(v / 0x100, n - 1, little), little);
      LimitStep(v, n);
    }
  }

  /** A 32-bit field and the bytes behind it. */
  function Word(v: nat, rest: seq<Byte>, little: bool): seq<Byte> {
    Bytes(v, 4, little) + rest
  }

  function First(bs: seq<Byte>, little: bool): nat
    requires |bs| >= 4
  {
    Number(bs[..4], little)
  }

  lemma FirstIffWord(bs: seq<Byte>, v: nat, rest: seq<Byte>, little: bool)
    requires |bs| >= 4
    ensures First(bs, little) == v && bs[4..] == rest <==> v < Limit(4) && bs == Word(v, rest, little)
  {
    NumberIffBytes(bs[..4], v, little);
    var digits := Bytes(v, 4, little);
    assert bs == bs[..4] + bs[4..];
    assert (digits + rest)[..4] == digits && (digits + rest)[4..] == rest;
  }

  function Total(widths: seq<nat>): nat {
    if widths == [] then 0 else widths[0] + Total(widths[1..])
  }

  /** struct.unpack for fields of the given widths. */
  function Unpack(widths: seq<nat>, bs: seq<Byte>, little: bool): (vs: seq<nat>)
    requires |bs| == Total(widths)
    ensures |vs| == |widths|
  {
    if widths == [] then []
    else [Number(bs[..widths[0]], little)] + Unpack(widths[1..], bs[widths[0]..], little)
  }

  function Pack(widths: seq<nat>, vs: seq<nat>, little: bool): (bs: seq<Byte>)
    requires |vs| == |widths|
    ensures |bs| == Total(widths)
  {
    if widths == [] then []
    else Bytes(vs[0], widths[0], little) + Pack(widths[1..], vs[1..], little)
  }

  predicate Fit(widths: seq<nat>, vs: seq<nat>) {
    && |vs| == |widths|
    && (widths != [] ==> vs[0] < Limit(widths[0]) && Fit(widths[1..], vs[1..]))
  }

  lemma UnpackIffPackStep(widths: seq<nat>, bs: seq<Byte>, vs: seq<nat>, little: bool, ws: seq<nat>, tail: seq<Byte>, us: seq<nat>)
    requires |bs| == Total(widths) && widths != [] && vs != []
    requires ws == widths[1..] && tail == bs[widths[0]..] && us == vs[1..]
    requires Unpack(ws, tail, little) == us <==> Fit(ws, us) && tail == Pack(ws, us, little)
    ensures Unpack(widths, bs, little) == vs <==> Fit(widths, vs) && bs == Pack(widths, vs, little)
  {
    var w := widths[0];
    var head := bs[..w];
    NumberIffBytes(head, vs[0], little);
    assert bs == head + tail && vs == [vs[0]] + us;
    var fields := Unpack(widths, bs, little);
    assert fields[0] == Number(head, little) && fields[1..] == Unpack(ws, tail, little);
    if |vs| == |widths| {
      var packed := Pack(widths, vs, little);
      assert packed[..w] == Bytes(vs[0], w, little) && packed[w..] == Pack(ws, us, little);
    }
  }

  /** Unpacking inverts packing, and packing inverts unpacking. */
  lemma {:induction false} UnpackIffPack(widths: seq<nat>, bs: seq<Byte>, vs: seq<nat>, little: bool)
    requires |bs| == Total(widths)
    ensures Unpack(widths, bs, little) == vs <==> Fit(widths, vs) && bs == Pack(widths, vs, little)
  {
    if widths != [] && vs != [] {
      var ws, tail, us := widths[1..], bs[widths[0]..], vs[1..];
      UnpackIffPack(ws, tail, us, little);
      UnpackIffPackStep(widths, bs, vs, little, ws, tail, us);
    }
  }

  // ----- Repetition -----

  type Reader<T> = seq<Byte> -> Result<(T, seq<Byte>), Fault>
  type Printer<!T> = (T, seq<Byte>) -> seq<Byte>

  /** Reads `count` things one behind the other; also the bytes after them. */
  function ReadMany<T>(read: Reader<T>, count: nat, bs: seq<Byte>): Result<(seq<T>, seq<Byte>), Fault> {
    if count == 0 then Ok(([], bs))
    else
      var head := read(bs);
      if head.Err? then Err(head.error)
      else
        var tail := ReadMany(read, count - 1, head.value.1);
        if tail.Err? then tail else Ok(([head.value.0] + tail.value.0, tail.value.1))
  }

  function PrintMany<T>(print1: Printer<T>, xs: seq<T>, rest: seq<Byte>): seq<Byte> {
    if xs == [] then rest else print1(xs[0], PrintMany(print1, xs[1..], rest))
  }

  ghost predicate All<T(!new)>(legal: T -> bool, xs: seq<T>) {
    forall i :: 0 <= i < |xs| ==> legal(xs[i])
  }

  ghost predicate Written<T(!new)>(bs: seq<Byte>, r: (T, seq<Byte>), print1: Printer<T>, legal: T -> bool) {
    legal(r.0) && bs == print1(r.0, r.1)
  }

  /** `read` accepts exactly what `print1` writes for legal things, and gives them back. */
  ghost predicate Inverse<T(!new)>(read: Reader<T>, print1: Printer<T>, legal: T -> bool) {
    && (forall x: T, rest: seq<Byte> :: legal(x) ==> read(print1(x, rest)) == Ok((x, rest)))
    && (forall bs: seq<Byte> :: read(bs).Ok? ==> Written(bs, read(bs).value, print1, legal))
  }

  lemma {:induction false} ManyRead<T(!new)>(read: Reader<T>, print1: Printer<T>, legal: T -> bool, xs: seq<T>, rest: seq<Byte>)
    requires Inverse(read, print1, legal) && All(legal, xs)
    ensures ReadMany(read, |xs|, PrintMany(print1, xs, rest)) == Ok((xs, rest))
  {
    if xs != [] {
      ManyRead(read, print1, legal, xs[1..], rest);
      assert read(PrintMany(print1, xs, rest)) == Ok((xs[0], PrintMany(print1, xs[1..], rest)));
      assert [xs[0]] + xs[1..] == xs;
    }
  }

  lemma {:induction false} ManyWritten<T(!new)>(read: Reader<T>, print1: Printer<T>, legal: T -> bool, count: nat, bs: seq<Byte>)
    requires Inverse(read, print1, legal) && ReadMany(read, count, bs).Ok?
    ensures
      var (xs, rest) := ReadMany(read, count, bs).value;
      |xs| == count && All(legal, xs) && bs == PrintMany(print1, xs, rest)
  {
    if count != 0 {
      var head := read(bs).value;
      ManyWritten(read, print1, legal, count - 1, head.1);
      var tail := ReadMany(read, count - 1, head.1).value.0;
      assert ([head.0] + tail)[1..] == tail;
    }
  }

  /** Repetition keeps the two inverse. */
  lemma ManyIff<T(!new)>(read: Reader<T>, print1: Printer<T>, legal: T -> bool, count: nat, bs: seq<Byte>, xs: seq<T>, rest: seq<Byte>)
    requires Inverse(read, print1, legal)
    ensures
      ReadMany(read, count, bs) == Ok((xs, rest))
      <==> |xs| == count && All(legal, xs) && bs == PrintMany(print1, xs, rest)
  {
    if ReadMany(read, count, bs).Ok? {
      ManyWritten(read, print1, legal, count, bs);
    }
    if All(legal, xs) {
      ManyRead(read, print1, legal, xs, rest);
    }
  }

  // ----- Load commands -----

  const RPATH := 0x8000_001C
  const NAMING := {0xC, 0x8000_0018, 0x8000_001F, 0x8000_0023, 0x20, RPATH}
  const BUILD_VERSION := 0x32
  const VERSION_MIN := 0x24

  /**
    A load command. In a naming command the name stands behind some bytes, ends with a zero
    byte and is followed by more bytes, all inside the command.
   */
  datatype Command =
    | Naming(kind: nat, gap: seq<Byte>, name: Name, slack: seq<Byte>)
    | BuildVersion(packed: nat, tail: seq<Byte>)
    | VersionMin(packed: nat, tail: seq<Byte>)
    | Other(kind: nat, payload: seq<Byte>)

  function Kind(c: Command): nat {
    match c
    case Naming(kind, _, _, _) => kind
    case BuildVersion(_, _) => BUILD_VERSION
    case VersionMin(_, _) => VERSION_MIN
    case Other(kind, _) => kind
  }

  function NameText(name: Name, slack: seq<Byte>): seq<Byte> {
    Utf8.EncodeScalars(name) + ([0] + slack)
  }

  function Payload(c: Command, little: bool): seq<Byte> {
    match c
    case Naming(_, gap, name, slack) => Word(12 + |gap|, gap + NameText(name, slack), little)
    case BuildVersion(packed, tail) => Word(MACOS, Word(packed, tail, little), little)
    case VersionMin(packed, tail) => Word(packed, tail, little)
    case Other(_, payload) => payload
  }

  predicate LegalBody(c: Command) {
    match c
    case Naming(kind, gap, name, slack) => kind in NAMING && 0 !in name
    case BuildVersion(packed, tail) => packed < Limit(4) && |tail| >= 8
    case VersionMin(packed, tail) => packed < Limit(4) && |tail| >= 4
    case Other(kind, _) => kind !in NAMING + {BUILD_VERSION, VERSION_MIN}
  }

  predicate Sized(payload: seq<Byte>) {
    8 + |payload| < Limit(4) && |payload| % 4 == 0
  }

  predicate Legal(c: Command, little: bool) {
    LegalBody(c) && Kind(c) < Limit(4) && Sized(Payload(c, little))
  }

  /** The bytes before the first zero byte and those after it. */
  function SplitAtZero(bs: seq<Byte>): Option<(seq<Byte>, seq<Byte>)> {
    if bs == [] then None
    else if bs[0] == 0 then Some(([], bs[1..]))
    else
      var rest := SplitAtZero(bs[1..]);
      if rest.None? then None else Some(([bs[0]] + rest.value.0, rest.value.1))
  }

  lemma {:induction false} SplitAtZeroIff(bs: seq<Byte>, front: seq<Byte>, back: seq<Byte>)
    ensures SplitAtZero(bs) == Some((front, back)) <==> 0 !in front && bs == front + ([0] + back)
  {
    if bs != [] {
      assert bs == [bs[0]] + bs[1..];
      if front == [] {
        assert front + ([0] + back) == [0] + back && ([0] + back)[1..] == back;
      } else {
        assert front + ([0] + back) == [front[0]] + (front[1..] + ([0] + back));
        assert front == [front[0]] + front[1..];
        SplitAtZeroIff(bs[1..], front[1..], back);
      }
    }
  }

  /** The name at the head of `text`, and the bytes after the zero byte that ends it. */
  function ReadName(text: seq<Byte>): Result<(Name, seq<Byte>), Fault> {
    var parts := SplitAtZero(text);
    if parts.None? then Err(BadNameOffset)
    else
      var name := Utf8.Decode(parts.value.0);
      if name.None? then Err(NameNotUtf8) else Ok((name.value, parts.value.1))
  }

  function ReadNaming(kind: nat, payload: seq<Byte>, little: bool): Result<Command, Fault> {
    if |payload| < 4 then Err(TruncatedNameCommand)
    else
      var offset := First(payload, little);
      if !(12 <= offset < 8 + |payload|) then Err(BadNameOffset)
      else
        var after := payload[4..];
        var name := ReadName(after[offset - 12..]);
        if name.Err? then Err(name.error)
        else Ok(Naming(kind, after[..offset - 12], name.value.0, name.value.1))
  }

  function ReadBody(kind: nat, payload: seq<Byte>, little: bool): Result<Command, Fault> {
    if kind in NAMING then ReadNaming(kind, payload, little)
    else if kind == BUILD_VERSION then
      if |payload| < 16 then Err(TruncatedVersion)
      else if First(payload, little) != MACOS then Err(NotForMacOS)
      else Ok(BuildVersion(First(payload[4..], little), payload[8..]))
    else if kind == VERSION_MIN then
      if |payload| < 8 then Err(TruncatedVersion)
      else Ok(VersionMin(First(payload, little), payload[4..]))
    else Ok(Other(kind, payload))
  }

  /** Zero is the only character with a zero byte. */
  lemma {:induction false} ZeroBytes(cs: seq<Utf8.Scalar>)
    ensures 0 in Utf8.EncodeScalars(cs) <==> 0 in cs
  {
    if cs != [] {
      ZeroBytes(cs[1..]);
      assert cs == [cs[0]] + cs[1..];
      assert 0 in Utf8.EncodeScalar(cs[0]) <==> cs[0] == 0;
    }
  }

  /** A name is read exactly from its written form. */
  lemma NameIff(text: seq<Byte>, name: Name, slack: seq<Byte>)
    ensures ReadName(text) == Ok((name, slack)) <==> 0 !in name && text == NameText(name, slack)
  {
    ZeroBytes(name);
    Utf8.DecodeIsInverse(Utf8.EncodeScalars(name), name);
    SplitAtZeroIff(text, Utf8.EncodeScalars(name), slack);
    var parts := SplitAtZero(text);
    if parts.Some? {
      SplitAtZeroIff(text, parts.value.0, parts.value.1);
      Utf8.DecodeIsInverse(parts.value.0, name);
    }
  }

  lemma Split(s: seq<Byte>, left: seq<Byte>, right: seq<Byte>)
    ensures s == left + right <==> |left| <= |s| && s[..|left|] == left && s[|left|..] == right
  {
    if |left| <= |s| {
      assert s == s[..|left|] + s[|left|..];
    }
  }

  lemma NamingIff(kind: nat, payload: seq<Byte>, c: Command, little: bool)
    requires c.Naming? && c.kind == kind && Sized(payload)
    ensures ReadNaming(kind, payload, little) == Ok(c) <==> 0 !in c.name && Payload(c, little) == payload
  {
    if |payload| >= 4 {
      var after, text, n := payload[4..], NameText(c.name, c.slack), |c.gap|;
      FirstIffWord(payload, 12 + n, c.gap + text, little);
      if n <= |after| {
        Split(after, c.gap, text);
        NameIff(after[n..], c.name, c.slack);
      }
    }
  }

  /** A command body is read exactly when it is the written form of a legal command, and as that command. */
  lemma BodyIff(kind: nat, payload: seq<Byte>, c: Command, little: bool)
    requires Sized(payload)
    ensures ReadBody(kind, payload, little) == Ok(c) <==> Kind(c) == kind && LegalBody(c) && Payload(c, little) == payload
  {
    if c.Naming? && c.kind == kind {
      NamingIff(kind, payload, c, little);
    } else if c.BuildVersion? && |payload| >= 8 {
      FirstIffWord(payload, MACOS, Word(c.packed, c.tail, little), little);
      FirstIffWord(payload[4..], c.packed, c.tail, little);
    } else if c.VersionMin? && |payload| >= 4 {
      FirstIffWord(payload, c.packed, c.tail, little);
    }
  }

  // ----- The command area -----

  /** A command by its frame alone. */
  function PrintFrame(kind: nat, payload: seq<Byte>, rest: seq<Byte>, little: bool): seq<Byte> {
    Word(kind, Word(8 + |payload|, payload + rest, little), little)
  }

  function PrintCommand(c: Command, rest: seq<Byte>, little: bool): seq<Byte> {
    PrintFrame(Kind(c), Payload(c, little), rest, little)
  }

  function CommandPrinter(little: bool): Printer<Command> {
    (c, rest) => PrintCommand(c, rest, little)
  }

  function LegalCommand(little: bool): Command -> bool {
    c => Legal(c, little)
  }

  function CommandReader(little: bool): Reader<Command> {
    area => ReadCommand(area, little)
  }

  /** The commands one after another, with nothing between and nothing behind. */
  function PrintCommands(cs: seq<Command>, little: bool): seq<Byte> {
    PrintMany(CommandPrinter(little), cs, [])
  }

  ghost predicate AllLegal(cs: seq<Command>, little: bool) {
    All(LegalCommand(little), cs)
  }

  /** The kind and the payload of the command at the head of `area`, and the bytes after it. */
  function ReadFrame(area: seq<Byte>, little: bool): (r: Result<(nat, seq<Byte>, seq<Byte>), Fault>)
    ensures r.Ok? ==> |r.value.2| < |area|
  {
    if |area| < 8 then Err(TruncatedCommandHeader)
    else
      var length := First(area[4..], little);
      if length < 8 || length % 4 != 0 || length > |area| then Err(BadCommandSize)
      else Ok((First(area, little), area[8..length], area[length..]))
  }

  /** The command at the head of `area` and the bytes after it. */
  function ReadCommand(area: seq<Byte>, little: bool): Result<(Command, seq<Byte>), Fault> {
    var frame := ReadFrame(area, little);
    if frame.Err? then Err(frame.error)
    else
      var c := ReadBody(frame.value.0, frame.value.1, little);
      if c.Err? then Err(c.error) else Ok((c.value, frame.value.2))
  }

  lemma FrameHeadIff(area: seq<Byte>, kind: nat, n: nat, after: seq<Byte>, little: bool)
    requires |area| >= 8
    ensures First(area, little) < Limit(4) && First(area[4..], little) < Limit(4)
    ensures
      First(area, little) == kind && First(area[4..], little) == n && area[8..] == after
      <==> kind < Limit(4) && n < Limit(4) && area == Word(kind, Word(n, after, little), little)
  {
    FirstIffWord(area, kind, Word(n, after, little), little);
    FirstIffWord(area[4..], n, after, little);
    NumberIffBytes(area[4..][..4], First(area[4..], little), little);
    NumberIffBytes(area[..4], First(area, little), little);
    assert area[4..][4..] == area[8..];
  }

  lemma PayloadSplit(area: seq<Byte>, payload: seq<Byte>, rest: seq<Byte>, n: nat)
    requires |area| >= 8 && n == 8 + |payload|
    ensures area[8..] == payload + rest <==> n <= |area| && area[8..n] == payload && area[n..] == rest
  {
    var after := area[8..];
    Split(after, payload, rest);
    if n <= |area| {
      assert after[..n - 8] == area[8..n];
      assert after[n - 8..] == area[n..];
    }
  }

  lemma FrameIsPrinted(area: seq<Byte>, kind: nat, payload: seq<Byte>, rest: seq<Byte>, little: bool)
    requires ReadFrame(area, little) == Ok((kind, payload, rest))
    ensures kind < Limit(4) && Sized(payload) && area == PrintFrame(kind, payload, rest, little)
  {
    FrameParts(area, kind, payload, rest, little);
    FrameHeadIff(area, kind, 8 + |payload|, payload + rest, little);
  }

  lemma Rejoined(area: seq<Byte>, m: nat, n: nat)
    requires m <= n <= |area|
    ensures area[m..] == area[m..n] + area[n..]
  {
  }

  lemma FrameParts(area: seq<Byte>, kind: nat, payload: seq<Byte>, rest: seq<Byte>, little: bool)
    requires ReadFrame(area, little) == Ok((kind, payload, rest))
    ensures |area| >= 8 && First(area, little) == kind && First(area[4..], little) == 8 + |payload|
    ensures area[8..] == payload + rest && |payload| % 4 == 0
  {
    Rejoined(area, 8, First(area[4..], little));
  }

  lemma FrameIsFound(area: seq<Byte>, kind: nat, payload: seq<Byte>, rest: seq<Byte>, little: bool, n: nat)
    requires n == 8 + |payload| && |payload| % 4 == 0
    requires |area| >= 8 && First(area, little) == kind && First(area[4..], little) == n && area[8..] == payload + rest
    ensures ReadFrame(area, little) == Ok((kind, payload, rest))
  {
    PayloadSplit(area, payload, rest, n);
  }

  lemma FrameLength(kind: nat, payload: seq<Byte>, rest: seq<Byte>, little: bool)
    ensures |PrintFrame(kind, payload, rest, little)| >= 8
  {
  }

  lemma FrameIff(area: seq<Byte>, kind: nat, payload: seq<Byte>, rest: seq<Byte>, little: bool)
    ensures
      ReadFrame(area, little) == Ok((kind, payload, rest))
      <==> kind < Limit(4) && Sized(payload) && area == PrintFrame(kind, payload, rest, little)
  {
    FrameLength(kind, payload, rest, little);
    if ReadFrame(area, little) == Ok((kind, payload, rest)) {
      FrameIsPrinted(area, kind, payload, rest, little);
    } else if |area| >= 8 && kind < Limit(4) && Sized(payload) {
      var n := 8 + |payload|;
      FrameHeadIff(area, kind, n, payload + rest, little);
      if area == PrintFrame(kind, payload, rest, little) {
        FrameIsFound(area, kind, payload, rest, little, n);
      }
    }
  }

  lemma CommandIff(area: seq<Byte>, c: Command, rest: seq<Byte>, little: bool)
    ensures ReadCommand(area, little) == Ok((c, rest)) <==> Legal(c, little) && area == PrintCommand(c, rest, little)
  {
    FrameIff(area, Kind(c), Payload(c, little), rest, little);
    if Sized(Payload(c, little)) {
      BodyIff(Kind(c), Payload(c, little), c, little);
    }
    var frame := ReadFrame(area, little);
    if frame.Ok? {
      FrameIff(area, frame.value.0, frame.value.1, frame.value.2, little);
      BodyIff(frame.value.0, frame.value.1, c, little);
    }
  }

  function ReadCommands(area: seq<Byte>, count: nat, little: bool): Result<seq<Command>, Fault> {
    var r := ReadMany(CommandReader(little), count, area);
    if r.Err? then Err(r.error) else if r.value.1 != [] then Err(NoVersionOrBadCount) else Ok(r.value.0)
  }

  lemma CommandsInverse(little: bool)
    ensures Inverse(CommandReader(little), CommandPrinter(little), LegalCommand(little))
  {
    var read, print1, legal := CommandReader(little), CommandPrinter(little), LegalCommand(little);
    forall c: Command, rest: seq<Byte> | legal(c)
      ensures read(print1(c, rest)) == Ok((c, rest))
    {
      CommandIff(print1(c, rest), c, rest, little);
    }
    forall area: seq<Byte> | read(area).Ok?
      ensures Written(area, read(area).value, print1, legal)
    {
      CommandIff(area, read(area).value.0, read(area).value.1, little);
    }
  }

  /** An area is accepted as `count` commands exactly when that many legal commands tile it. */
  lemma CommandsIff(area: seq<Byte>, count: nat, cs: seq<Command>, little: bool)
    ensures
      ReadCommands(area, count, little) == Ok(cs)
      <==> |cs| == count && AllLegal(cs, little) && area == PrintCommands(cs, little)
  {
    CommandsInverse(little);
    ManyIff(CommandReader(little), CommandPrinter(little), LegalCommand(little), count, area, cs, []);
  }

  // ----- The image -----

  const HEADER: seq<nat> := [4, 4, 4, 4, 4, 4, 4]

  /** A 64-bit image: the header fields nothing is asked of, and the commands. */
  datatype Image = Image(little: bool, subtype: nat, fileType: nat, flags: nat, reserved: nat, commands: seq<Command>)

  function Magic(little: bool): (m: seq<Byte>)
    ensures |m| == 4
  {
    if little then [0xCF, 0xFA, 0xED, 0xFE] else [0xFE, 0xED, 0xFA, 0xCF]
  }

  function HeaderFields(i: Image, area: seq<Byte>): (vs: seq<nat>)
    ensures |vs| == 7
  {
    [ARM64, i.subtype, i.fileType, |i.commands|, |area|, i.flags, i.reserved]
  }

  function PrintImage(i: Image): seq<Byte> {
    var area := PrintCommands(i.commands, i.little);
    Magic(i.little) + (Pack(HEADER, HeaderFields(i, area), i.little) + area)
  }

  ghost predicate LegalImage(i: Image) {
    var area := PrintCommands(i.commands, i.little);
    AllLegal(i.commands, i.little) && |area| <= MAX_COMMAND_BYTES && Fit(HEADER, HeaderFields(i, area))
  }

  /** Reading from a stream, given its unread bytes; the end comes early without complaint. */
  function Take(stream: seq<Byte>, n: nat): (bs: seq<Byte>)
    ensures |bs| <= n && bs <= stream
  {
    if n <= |stream| then stream[..n] else stream
  }

  function Drop(stream: seq<Byte>, n: nat): seq<Byte> {
    if n <= |stream| then stream[n..] else []
  }

  lemma HeaderIsSevenWords()
    ensures Total(HEADER) == 28
  {
    assert Total([4]) == 4 && Total([4, 4]) == 8 && Total([4, 4, 4]) == 12 && Total([4, 4, 4, 4]) == 16;
    assert [4, 4, 4, 4, 4][1..] == [4, 4, 4, 4];
    assert [4, 4, 4, 4, 4, 4][1..] == [4, 4, 4, 4, 4];
    assert HEADER[1..] == [4, 4, 4, 4, 4, 4];
  }

  /** The seven header fields after the magic number. */
  function ReadHeader(stream: seq<Byte>, sliceSize: nat, little: bool): (r: Result<seq<nat>, Fault>)
    ensures r.Ok? ==> |r.value| == 7
  {
    HeaderIsSevenWords();
    if |Take(stream, 28)| != 28 then Err(TruncatedHeader)
    else
      var fields := Unpack(HEADER, stream[..28], little);
      if fields[0] != ARM64 || fields[4] > MAX_COMMAND_BYTES || 32 + fields[4] > sliceSize then Err(BadHeader) else Ok(fields)
  }

  function ReadImage(stream: seq<Byte>, sliceSize: nat): Result<Image, Fault> {
    var magic := Take(stream, 4);
    if magic != Magic(true) && magic != Magic(false) then Err(NotMachO)
    else
      var little := magic == Magic(true);
      var header := ReadHeader(Drop(stream, 4), sliceSize, little);
      if header.Err? then Err(header.error)
      else
        var v := header.value;
        var area := Take(Drop(stream, 32), v[4]);
        if |area| != v[4] then Err(TruncatedCommands)
        else
          var cs := ReadCommands(area, v[3], little);
          if cs.Err? then Err(cs.error) else Ok(Image(little, v[1], v[2], v[5], v[6], cs.value))
  }

  lemma HeaderIff(stream: seq<Byte>, sliceSize: nat, vs: seq<nat>, little: bool)
    requires |vs| == 7
    ensures |Pack(HEADER, vs, little)| == 28
    ensures
      ReadHeader(stream, sliceSize, little) == Ok(vs)
      <==> && vs[0] == ARM64 && vs[4] <= MAX_COMMAND_BYTES && 32 + vs[4] <= sliceSize && Fit(HEADER, vs)
           && Pack(HEADER, vs, little) <= stream
  {
    HeaderIsSevenWords();
    if |stream| >= 28 {
      UnpackIffPack(HEADER, stream[..28], vs, little);
    }
  }

  lemma ImageParts(stream: seq<Byte>, magic: seq<Byte>, header: seq<Byte>, area: seq<Byte>)
    requires |magic| == 4 && |header| == 28
    ensures
      magic + (header + area) <= stream
      <==> Take(stream, 4) == magic && header <= Drop(stream, 4) && Take(Drop(stream, 32), |area|) == area
  {
    if 32 + |area| <= |stream| {
      var head := stream[..32 + |area|];
      Split(head, magic, header + area);
      Split(head[4..], header, area);
      assert head[4..][..28] == Drop(stream, 4)[..28];
      assert head[4..][28..] == Take(Drop(stream, 32), |area|);
    }
  }

  lemma ImageRead(stream: seq<Byte>, sliceSize: nat, i: Image)
    requires LegalImage(i) && |PrintImage(i)| <= sliceSize && PrintImage(i) <= stream
    ensures ReadImage(stream, sliceSize) == Ok(i)
  {
    var area := PrintCommands(i.commands, i.little);
    var vs := HeaderFields(i, area);
    HeaderIff(Drop(stream, 4), sliceSize, vs, i.little);
    ImageParts(stream, Magic(i.little), Pack(HEADER, vs, i.little), area);
    CommandsIff(area, |i.commands|, i.commands, i.little);
  }

  /** The parts an accepted image was read from. */
  lemma ImageFields(stream: seq<Byte>, sliceSize: nat) returns (v: seq<nat>, area: seq<Byte>)
    requires ReadImage(stream, sliceSize).Ok?
    ensures
      var i := ReadImage(stream, sliceSize).value;
      && Take(stream, 4) == Magic(i.little)
      && |v| == 7 && ReadHeader(Drop(stream, 4), sliceSize, i.little) == Ok(v)
      && area == Take(Drop(stream, 32), |area|)
      && ReadCommands(area, v[3], i.little) == Ok(i.commands)
      && v[0] == ARM64 && v[1] == i.subtype && v[2] == i.fileType && v[4] == |area| && v[5] == i.flags && v[6] == i.reserved
  {
    var i := ReadImage(stream, sliceSize).value;
    v := ReadHeader(Drop(stream, 4), sliceSize, i.little).value;
    area := Take(Drop(stream, 32), v[4]);
  }

  lemma FieldsAreHeader(v: seq<nat>, i: Image, area: seq<Byte>)
    requires |v| == 7 && v[0] == ARM64 && v[1] == i.subtype && v[2] == i.fileType && v[3] == |i.commands|
    requires v[4] == |area| && v[5] == i.flags && v[6] == i.reserved
    ensures v == HeaderFields(i, area)
  {
  }

  lemma ImageWritten(stream: seq<Byte>, sliceSize: nat)
    requires sliceSize <= |stream| && ReadImage(stream, sliceSize).Ok?
    ensures
      var i := ReadImage(stream, sliceSize).value;
      LegalImage(i) && |PrintImage(i)| <= sliceSize && PrintImage(i) <= stream
  {
    var i := ReadImage(stream, sliceSize).value;
    var v, area := ImageFields(stream, sliceSize);
    CommandsIff(area, v[3], i.commands, i.little);
    FieldsAreHeader(v, i, area);
    WrittenImage(stream, sliceSize, i, area);
  }

  lemma WrittenImage(stream: seq<Byte>, sliceSize: nat, i: Image, area: seq<Byte>)
    requires area == PrintCommands(i.commands, i.little) && AllLegal(i.commands, i.little)
    requires ReadHeader(Drop(stream, 4), sliceSize, i.little) == Ok(HeaderFields(i, area))
    requires Take(stream, 4) == Magic(i.little) && area == Take(Drop(stream, 32), |area|)
    ensures LegalImage(i) && |PrintImage(i)| <= sliceSize && PrintImage(i) <= stream
  {
    var v := HeaderFields(i, area);
    HeaderIff(Drop(stream, 4), sliceSize, v, i.little);
    ImageParts(stream, Magic(i.little), Pack(HEADER, v, i.little), area);
  }

  /** An image is read exactly when its printed form stands at the head of the slice and fits into it. */
  lemma ImageIff(stream: seq<Byte>, sliceSize: nat, i: Image)
    requires sliceSize <= |stream|
    ensures
      ReadImage(stream, sliceSize) == Ok(i)
      <==> LegalImage(i) && |PrintImage(i)| <= sliceSize && PrintImage(i) <= stream
  {
    if ReadImage(stream, sliceSize).Ok? {
      ImageWritten(stream, sliceSize);
    }
    if LegalImage(i) && |PrintImage(i)| <= sliceSize && PrintImage(i) <= stream {
      ImageRead(stream, sliceSize, i);
    }
  }

  // ----- The table of architectures -----

  /** An entry is its unpacked fields: processor, subtype, offset, size and what follows. */
  type Entry = seq<nat>

  function Widths(wide: bool): (ws: seq<nat>)
    ensures |ws| >= 5
  {
    if wide then [4, 4, 8, 8, 4, 4] else [4, 4, 4, 4, 4]
  }

  function EntrySize(wide: bool): nat { if wide then 32 else 20 }

  function TableSize(count: nat, wide: bool): nat { if wide then count * 32 else count * 20 }

  lemma EntryWidths(wide: bool)
    ensures Total(Widths(wide)) == EntrySize(wide)
  {
    assert Total([4]) == 4 && Total([4, 4]) == 8 && Total([4, 4, 4]) == 12 && Total([8, 4, 4]) == 16;
    assert [8, 8, 4, 4][1..] == [8, 4, 4];
    assert [4, 8, 8, 4, 4][1..] == [8, 8, 4, 4];
    assert [4, 4, 8, 8, 4, 4][1..] == [4, 8, 8, 4, 4];
    assert [4, 4, 4, 4][1..] == [4, 4, 4] && [4, 4, 4, 4, 4][1..] == [4, 4, 4, 4];
  }

  datatype Table = Table(little: bool, wide: bool, entries: seq<Entry>)

  /** Where slices may lie: behind the table, inside the file. */
  datatype Bounds = Bounds(tableEnd: nat, fileSize: nat)

  predicate Within(e: Entry, b: Bounds) {
    |e| >= 4 && b.tableEnd <= e[2] && e[2] + e[3] <= b.fileSize
  }

  function ReadEntry(little: bool, wide: bool, b: Bounds, stream: seq<Byte>): Result<(Entry, seq<Byte>), Fault> {
    EntryWidths(wide);
    if |stream| < EntrySize(wide) then Err(TruncatedTable)
    else
      var e := Unpack(Widths(wide), stream[..EntrySize(wide)], little);
      if !Within(e, b) then Err(SliceEscapes) else Ok((e, stream[EntrySize(wide)..]))
  }

  function EntryReader(little: bool, wide: bool, b: Bounds): Reader<Entry> {
    stream => ReadEntry(little, wide, b, stream)
  }

  function EntryPrinter(little: bool, wide: bool): Printer<Entry> {
    (e, rest) => (if |e| == |Widths(wide)| then Pack(Widths(wide), e, little) else []) + rest
  }

  function LegalEntry(wide: bool, b: Bounds): Entry -> bool {
    e => Fit(Widths(wide), e) && Within(e, b)
  }

  lemma EntriesInverse(little: bool, wide: bool, b: Bounds)
    ensures Inverse(EntryReader(little, wide, b), EntryPrinter(little, wide), LegalEntry(wide, b))
  {
    var read, print1, legal := EntryReader(little, wide, b), EntryPrinter(little, wide), LegalEntry(wide, b);
    EntryWidths(wide);
    forall e: Entry, rest: seq<Byte> | legal(e)
      ensures read(print1(e, rest)) == Ok((e, rest))
    {
      var bytes := Pack(Widths(wide), e, little);
      Split(bytes + rest, bytes, rest);
      UnpackIffPack(Widths(wide), bytes, e, little);
    }
    forall stream: seq<Byte> | read(stream).Ok?
      ensures Written(stream, read(stream).value, print1, legal)
    {
      var (e, rest) := read(stream).value;
      UnpackIffPack(Widths(wide), stream[..EntrySize(wide)], e, little);
      Split(stream, Pack(Widths(wide), e, little), rest);
    }
  }

  function TableBounds(count: nat, wide: bool, fileSize: nat): Bounds {
    Bounds(8 + TableSize(count, wide), fileSize)
  }

  /** The table in front of what follows it, without its magic number. */
  function PrintTable(t: Table, rest: seq<Byte>): seq<Byte> {
    Word(|t.entries|, PrintMany(EntryPrinter(t.little, t.wide), t.entries, rest), t.little)
  }

  ghost predicate LegalTable(t: Table, fileSize: nat) {
    && 1 <= |t.entries| <= 64
    && All(LegalEntry(t.wide, TableBounds(|t.entries|, t.wide, fileSize)), t.entries)
  }

  function ReadTable(little: bool, wide: bool, stream: seq<Byte>, fileSize: nat): Result<(Table, seq<Byte>), Fault> {
    if |stream| < 4 then Err(TruncatedFatHeader)
    else
      var count := First(stream, little);
      if !(1 <= count <= 64) then Err(BadArchitectureCount)
      else
        var r := ReadMany(EntryReader(little, wide, TableBounds(count, wide, fileSize)), count, stream[4..]);
        if r.Err? then Err(r.error) else Ok((Table(little, wide, r.value.0), r.value.1))
  }

  /** A table is read exactly from its printed form, when all its slices lie behind it and in the file. */
  lemma TableIff(stream: seq<Byte>, t: Table, rest: seq<Byte>, fileSize: nat)
    ensures
      ReadTable(t.little, t.wide, stream, fileSize) == Ok((t, rest))
      <==> LegalTable(t, fileSize) && stream == PrintTable(t, rest)
  {
    if |stream| >= 4 {
      var count, first := |t.entries|, First(stream, t.little);
      assert Limit(4) == 0x1_0000_0000;
      FirstIffWord(stream, count, PrintMany(EntryPrinter(t.little, t.wide), t.entries, rest), t.little);
      EntriesIff(stream[4..], t, rest, count, fileSize);
      EntriesIff(stream[4..], t, rest, first, fileSize);
    }
  }

  lemma EntriesIff(stream: seq<Byte>, t: Table, rest: seq<Byte>, count: nat, fileSize: nat)
    ensures
      var b := TableBounds(count, t.wide, fileSize);
      ReadMany(EntryReader(t.little, t.wide, b), count, stream) == Ok((t.entries, rest))
      <==> && |t.entries| == count && All(LegalEntry(t.wide, b), t.entries)
           && stream == PrintMany(EntryPrinter(t.little, t.wide), t.entries, rest)
  {
    var b := TableBounds(count, t.wide, fileSize);
    EntriesInverse(t.little, t.wide, b);
    ManyIff(EntryReader(t.little, t.wide, b), EntryPrinter(t.little, t.wide), LegalEntry(t.wide, b), count, stream, t.entries, rest);
  }

  // ----- The whole file -----

  datatype Slice = Slice(offset: nat, size: nat)

  datatype Version = Version(major: nat, minor: nat, patch: nat)

  datatype Audit = Audit(dependencies: seq<Name>, rpaths: seq<Name>, minimum: Version)

  function FatMagic(little: bool, wide: bool): (m: seq<Byte>)
    ensures |m| == 4
  {
    var last: Byte := if wide then 0xBF else 0xBE;
    if little then [last, 0xBA, 0xFE, 0xCA] else [0xCA, 0xFE, 0xBA, last]
  }

  /** How the table is written, if the magic number says there is one. */
  function FatForm(magic: seq<Byte>): Option<(bool, bool)> {
    if magic == FatMagic(false, false) then Some((false, false))
    else if magic == FatMagic(true, false) then Some((true, false))
    else if magic == FatMagic(false, true) then Some((false, true))
    else if magic == FatMagic(true, true) then Some((true, true))
    else None
  }

  lemma FormIff(magic: seq<Byte>, little: bool, wide: bool)
    ensures FatForm(magic) == Some((little, wide)) <==> magic == FatMagic(little, wide)
    ensures magic == Magic(little) ==> FatForm(magic) == None
  {
    assert FatMagic(false, false)[3] == 0xBE && FatMagic(false, true)[3] == 0xBF;
    assert FatMagic(true, false)[0] == 0xBE && FatMagic(true, true)[0] == 0xBF;
    assert FatMagic(false, wide)[0] == 0xCA && FatMagic(true, wide)[3] == 0xCA;
  }

  predicate IsArm64(e: Entry) {
    |e| >= 4 && e[0] == ARM64
  }

  function SliceOf(e: Entry): Slice
    requires |e| >= 4
  {
    Slice(e[2], e[3])
  }

  function Arm64Slices(entries: seq<Entry>): seq<Slice> {
    if entries == [] then []
    else (if IsArm64(entries[0]) then [SliceOf(entries[0])] else []) + Arm64Slices(entries[1..])
  }

  /** Entry `k` and no other is for this processor. */
  ghost predicate OnlyArm64(entries: seq<Entry>, k: nat) {
    && k < |entries| && |entries[k]| >= 4
    && forall j :: 0 <= j < |entries| ==> (|entries[j]| >= 4 && entries[j][0] == 0x0100_000C <==> j == k)
  }

  lemma {:induction false} NoSlice(entries: seq<Entry>)
    ensures Arm64Slices(entries) == [] <==> forall j :: 0 <= j < |entries| ==> !IsArm64(entries[j])
  {
    if entries != [] {
      NoSlice(entries[1..]);
      assert forall j :: 1 <= j < |entries| ==> entries[j] == entries[1..][j - 1];
    }
  }

  lemma {:induction false} OnlyEntryGivesSlice(entries: seq<Entry>, k: nat)
    requires OnlyArm64(entries, k)
    ensures Arm64Slices(entries) == [SliceOf(entries[k])]
  {
    assert forall j :: 0 <= j < |entries| - 1 ==> entries[1..][j] == entries[j + 1];
    assert IsArm64(entries[0]) <==> k == 0;
    if k == 0 {
      NoSlice(entries[1..]);
    } else {
      OnlyEntryGivesSlice(entries[1..], k - 1);
    }
  }

  lemma {:induction false} SliceHasEntry(entries: seq<Entry>) returns (k: nat)
    requires |Arm64Slices(entries)| == 1
    ensures OnlyArm64(entries, k) && Arm64Slices(entries) == [SliceOf(entries[k])]
  {
    assert forall j :: 1 <= j < |entries| ==> entries[j] == entries[1..][j - 1];
    if IsArm64(entries[0]) {
      k := 0;
      NoSlice(entries[1..]);
    } else {
      k := SliceHasEntry(entries[1..]);
      k := k + 1;
    }
  }

  function ChooseSlice(slices: seq<Slice>): Result<Slice, Fault> {
    if |slices| == 1 then Ok(slices[0]) else Err(NotOneArm64Slice)
  }

  /** The part of the file the image must be in. */
  function Locate(file: seq<Byte>): Result<Slice, Fault> {
    match FatForm(Take(file, 4))
    case None => Ok(Slice(0, |file|))
    case Some((little, wide)) =>
      var table := ReadTable(little, wide, Drop(file, 4), |file|);
      if table.Err? then Err(table.error) else ChooseSlice(Arm64Slices(table.value.0.entries))
  }

  function ReadFile(file: seq<Byte>): Result<Image, Fault> {
    var slice := Locate(file);
    if slice.Err? then Err(slice.error) else ReadImage(Drop(file, slice.value.offset), slice.value.size)
  }

  ghost predicate ThinFile(file: seq<Byte>, i: Image) {
    LegalImage(i) && PrintImage(i) <= file
  }

  /** A table and the bytes after it, with entry `k` the only one for this processor. */
  ghost predicate FatTable(file: seq<Byte>, t: Table, rest: seq<Byte>, k: nat) {
    && LegalTable(t, |file|) && file == FatMagic(t.little, t.wide) + PrintTable(t, rest)
    && OnlyArm64(t.entries, k)
  }

  /** The image stands at the head of that entry's slice. */
  ghost predicate FatFile(file: seq<Byte>, t: Table, rest: seq<Byte>, k: nat, i: Image) {
    && FatTable(file, t, rest, k)
    && var (offset, size) := (t.entries[k][2], t.entries[k][3]);
       LegalImage(i) && |PrintImage(i)| <= size && offset <= |file| && PrintImage(i) <= file[offset..]
  }

  ghost predicate HasImage(file: seq<Byte>, i: Image) {
    ThinFile(file, i) || exists t, rest, k :: FatFile(file, t, rest, k, i)
  }

  lemma ThinIsRead(file: seq<Byte>, i: Image)
    requires ThinFile(file, i)
    ensures ReadFile(file) == Ok(i)
  {
    assert Take(file, 4) == PrintImage(i)[..4] == Magic(i.little);
    FormIff(Take(file, 4), i.little, false);
    assert Drop(file, 0) == file;
    ImageIff(file, |file|, i);
  }

  lemma TableIsLocated(file: seq<Byte>, t: Table, rest: seq<Byte>, k: nat)
    requires FatTable(file, t, rest, k)
    ensures Locate(file) == Ok(SliceOf(t.entries[k]))
  {
    Split(file, FatMagic(t.little, t.wide), PrintTable(t, rest));
    FormIff(Take(file, 4), t.little, t.wide);
    TableIff(Drop(file, 4), t, rest, |file|);
    OnlyEntryGivesSlice(t.entries, k);
  }

  lemma LocatedHasTable(file: seq<Byte>) returns (t: Table, rest: seq<Byte>, k: nat)
    requires FatForm(Take(file, 4)).Some? && Locate(file).Ok?
    ensures FatTable(file, t, rest, k) && Locate(file) == Ok(SliceOf(t.entries[k]))
  {
    var (little, wide) := FatForm(Take(file, 4)).value;
    FormIff(Take(file, 4), little, wide);
    var read := ReadTable(little, wide, Drop(file, 4), |file|).value;
    t, rest := read.0, read.1;
    TableIff(Drop(file, 4), t, rest, |file|);
    assert file == Take(file, 4) + Drop(file, 4);
    k := SliceHasEntry(t.entries);
  }

  lemma FatIsRead(file: seq<Byte>, t: Table, rest: seq<Byte>, k: nat, i: Image)
    requires FatFile(file, t, rest, k, i)
    ensures ReadFile(file) == Ok(i)
  {
    TableIsLocated(file, t, rest, k);
    var s := SliceOf(t.entries[k]);
    ImageIff(Drop(file, s.offset), s.size, i);
  }

  lemma ReadHasImage(file: seq<Byte>)
    requires ReadFile(file).Ok?
    ensures HasImage(file, ReadFile(file).value)
  {
    var i := ReadFile(file).value;
    if FatForm(Take(file, 4)) == None {
      assert Drop(file, 0) == file;
      ImageIff(file, |file|, i);
    } else {
      var t, rest, k := LocatedHasTable(file);
      var s := SliceOf(t.entries[k]);
      ImageIff(Drop(file, s.offset), s.size, i);
      assert FatFile(file, t, rest, k, i);
    }
  }

  /** A file is read, and as this image, exactly when it is a thin or a FAT form of the image. */
  lemma ReadIffHasImage(file: seq<Byte>, i: Image)
    ensures ReadFile(file) == Ok(i) <==> HasImage(file, i)
  {
    if ReadFile(file) == Ok(i) {
      ReadHasImage(file);
    }
    if ThinFile(file, i) {
      ThinIsRead(file, i);
    } else if HasImage(file, i) {
      var t, rest, k :| FatFile(file, t, rest, k, i);
      FatIsRead(file, t, rest, k, i);
    }
  }

  // ----- What is reported -----

  function Unpacked(packed: nat): Version {
    Version(packed / 0x1_0000, packed / 0x100 % 0x100, packed % 0x100)
  }

  /** The order of Python tuples. */
  predicate Newer(v: Version, w: Version) {
    v.major > w.major || (v.major == w.major && (v.minor > w.minor || (v.minor == w.minor && v.patch > w.patch)))
  }

  /** Comparing versions is comparing packed integers; macOS 14.0.0 packs to 14 * 0x1_0000. */
  lemma NewerIffPackedLarger(p: nat, q: nat)
    ensures Newer(Unpacked(p), Unpacked(q)) <==> p > q
    ensures Unpacked(14 * 0x1_0000) == Version(14, 0, 0)
  {
    assert p == p / 0x1_0000 * 0x1_0000 + p / 0x100 % 0x100 * 0x100 + p % 0x100;
    assert q == q / 0x1_0000 * 0x1_0000 + q / 0x100 % 0x100 * 0x100 + q % 0x100;
  }

  predicate HasVersion(c: Command) {
    c.BuildVersion? || c.VersionMin?
  }

  /** What a command adds to the report. */
  function NameIn(c: Command, rpaths: bool): seq<Name> {
    if c.Naming? && (c.kind == RPATH) == rpaths then [c.name] else []
  }

  function VersionIn(c: Command, before: Option<Version>): Option<Version> {
    if HasVersion(c) then Some(Unpacked(c.packed)) else before
  }

  /** The names the commands carry, in order: search paths or libraries. */
  function Names(cs: seq<Command>, rpaths: bool): seq<Name> {
    if cs == [] then []
    else NameIn(cs[0], rpaths) + Names(cs[1..], rpaths)
  }

  function LastVersion(cs: seq<Command>, before: Option<Version>): Option<Version> {
    if cs == [] then before
    else LastVersion(cs[1..], VersionIn(cs[0], before))
  }

  /** Some command has version `v`, and none after it has any. */
  ghost predicate EndsWithVersion(cs: seq<Command>, v: Version) {
    exists k :: 0 <= k < |cs| && HasVersion(cs[k]) && v == Unpacked(cs[k].packed) && NoVersion(cs[k + 1..])
  }

  /** Which commands have a version, and how it is packed. */
  lemma VersionOf(c: Command)
    ensures HasVersion(c) <==> c.BuildVersion? || c.VersionMin?
    ensures
      HasVersion(c) ==>
        var v := Unpacked(c.packed);
        v.minor < 0x100 && v.patch < 0x100 && c.packed == v.major * 0x1_0000 + v.minor * 0x100 + v.patch
  {
  }

  ghost predicate NoVersion(cs: seq<Command>) {
    forall j :: 0 <= j < |cs| ==> !HasVersion(cs[j])
  }

  lemma EndsWithVersionStep(cs: seq<Command>, v: Version)
    requires cs != []
    ensures
      EndsWithVersion(cs, v)
      <==> EndsWithVersion(cs[1..], v) || (HasVersion(cs[0]) && v == Unpacked(cs[0].packed) && NoVersion(cs[1..]))
  {
    forall k | 0 <= k < |cs| - 1
      ensures cs[1..][k] == cs[k + 1] && cs[1..][k + 1..] == cs[k + 2..]
    {
    }
    if EndsWithVersion(cs, v) {
      var k :| 0 <= k < |cs| && HasVersion(cs[k]) && v == Unpacked(cs[k].packed) && NoVersion(cs[k + 1..]);
      if k > 0 {
        assert cs[1..][k - 1] == cs[k] && cs[1..][k..] == cs[k + 1..];
      }
    }
  }

  /** There is a version to report exactly when some command has one, and it is that of the last such command. */
  lemma {:induction false} VersionIsLast(cs: seq<Command>, before: Option<Version>, v: Version)
    ensures LastVersion(cs, before) == Some(v) <==> EndsWithVersion(cs, v) || (before == Some(v) && NoVersion(cs))
  {
    if cs != [] {
      var next := if HasVersion(cs[0]) then Some(Unpacked(cs[0].packed)) else before;
      VersionIsLast(cs[1..], next, v);
      EndsWithVersionStep(cs, v);
      assert NoVersion(cs) <==> !HasVersion(cs[0]) && NoVersion(cs[1..]) by {
        assert forall j :: 1 <= j < |cs| ==> cs[j] == cs[1..][j - 1];
      }
    }
  }

  /** What was collected so far. */
  datatype Collected = Collected(dependencies: seq<Name>, rpaths: seq<Name>, minimum: Option<Version>)

  function With(before: Collected, c: Command): Collected {
    Collected(before.dependencies + NameIn(c, false), before.rpaths + NameIn(c, true), VersionIn(c, before.minimum))
  }

  /** What reading on from here reports. */
  function Finish(r: Result<seq<Command>, Fault>, found: Collected): Result<Audit, Fault> {
    if r.Err? then Err(r.error)
    else
      var last := LastVersion(r.value, found.minimum);
      if last.None? then Err(NoVersionOrBadCount)
      else Ok(Audit(found.dependencies + Names(r.value, false), found.rpaths + Names(r.value, true), last.value))
  }

  const NOTHING := Collected([], [], None)

  function Inspect(file: seq<Byte>): Result<Audit, Fault> {
    var i := ReadFile(file);
    if i.Err? then Err(i.error) else Finish(Ok(i.value.commands), NOTHING)
  }

  ghost predicate Ascends(at: seq<nat>) {
    forall j, k :: 0 <= j < k < |at| ==> at[j] < at[k]
  }

  ghost predicate Exactly<T(!new)>(xs: seq<T>, wanted: T -> bool, at: seq<nat>) {
    forall k: nat :: k in at <==> k < |xs| && wanted(xs[k])
  }

  /** `at` are the positions of the wanted things, in order. */
  ghost predicate Positions<T(!new)>(xs: seq<T>, wanted: T -> bool, at: seq<nat>) {
    Ascends(at) && Exactly(xs, wanted, at)
  }

  function NamedBy(kinds: set<nat>): Command -> bool {
    (c: Command) => c.Naming? && c.kind in kinds
  }

  /** `names` are the names of the commands of these kinds: one for each, and in their order. */
  ghost predicate Lists(cs: seq<Command>, kinds: set<nat>, names: seq<Name>) {
    exists at :: Positions(cs, NamedBy(kinds), at) && NamesAt(cs, at, names)
  }

  ghost predicate NamesAt(cs: seq<Command>, at: seq<nat>, names: seq<Name>) {
    && |at| == |names|
    && forall j :: 0 <= j < |at| ==> at[j] < |cs| && cs[at[j]].Naming? && cs[at[j]].name == names[j]
  }

  /**
    The report on an image: the names of its commands of kind 0x8000001C as search paths, those of its five
    other naming kinds as libraries, each in order, and its last version, if it has one.
   */
  ghost predicate Reports(i: Image, a: Audit) {
    && Lists(i.commands, {0x8000_001C}, a.rpaths)
    && Lists(i.commands, {0xC, 0x8000_0018, 0x8000_001F, 0x8000_0023, 0x20}, a.dependencies)
    && EndsWithVersion(i.commands, a.minimum)
  }

  lemma NoPositions<T(!new)>(wanted: T -> bool)
    ensures Positions([], wanted, [])
  {
  }

  lemma OnePosition<T(!new)>(x: T, wanted: T -> bool)
    ensures Positions([x], wanted, if wanted(x) then [0] else [])
  {
    var at: seq<nat> := if wanted(x) then [0] else [];
    forall k: nat
      ensures k in at <==> k < 1 && wanted([x][k])
    {
      assert [x][0] == x;
    }
  }

  lemma InShifted(at: seq<nat>, n: nat, shifted: seq<nat>, k: nat)
    requires |shifted| == |at| && forall j :: 0 <= j < |at| ==> shifted[j] == n + at[j]
    ensures k in shifted <==> k >= n && k - n in at
  {
    if k in shifted {
      var j :| 0 <= j < |shifted| && shifted[j] == k;
      assert at[j] == k - n;
    }
    if k >= n && k - n in at {
      var j :| 0 <= j < |at| && at[j] == k - n;
      assert shifted[j] == k;
    }
  }

  lemma AscendsAppend(at: seq<nat>, n: nat, shifted: seq<nat>)
    requires Ascends(at) && Ascends(shifted)
    requires (forall k: nat :: k in at ==> k < n) && (forall k: nat :: k in shifted ==> k >= n)
    ensures Ascends(at + shifted)
  {
    var both := at + shifted;
    forall j, k | 0 <= j < k < |both|
      ensures both[j] < both[k]
    {
      if j < |at| <= k {
        assert both[j] == at[j] && at[j] in at;
        assert both[k] == shifted[k - |at|] && shifted[k - |at|] in shifted;
      }
    }
  }

  /** The positions in one list behind another. */
  lemma PositionsAppend<T(!new)>(xs: seq<T>, ys: seq<T>, wanted: T -> bool, at: seq<nat>, at': seq<nat>, shifted: seq<nat>)
    requires Positions(xs, wanted, at) && Positions(ys, wanted, at')
    requires |shifted| == |at'| && forall j :: 0 <= j < |at'| ==> shifted[j] == |xs| + at'[j]
    ensures Positions(xs + ys, wanted, at + shifted)
  {
    var n, all := |xs|, xs + ys;
    forall k: nat
      ensures k in shifted <==> k >= n && k - n in at'
      ensures k in at + shifted <==> k < |all| && wanted(all[k])
    {
      InShifted(at', n, shifted, k);
      assert k in at + shifted <==> k in at || k in shifted;
      if k < n {
        assert all[k] == xs[k];
      } else if k < |all| {
        assert all[k] == ys[k - n];
      }
    }
    AscendsAppend(at, n, shifted);
  }

  lemma SamePrefix(at: seq<nat>, other: seq<nat>, n: nat)
    requires n <= |at| && n <= |other| && at[..n] == other[..n]
    ensures forall j :: 0 <= j < n ==> at[j] == other[j]
  {
    assert forall j :: 0 <= j < n ==> at[j] == at[..n][j] && other[j] == other[..n][j];
  }

  lemma SameMembers<T(!new)>(xs: seq<T>, wanted: T -> bool, at: seq<nat>, other: seq<nat>)
    requires Exactly(xs, wanted, at) && Exactly(xs, wanted, other)
    ensures forall k: nat :: k in at <==> k in other
  {
  }

  lemma NextBound(at: seq<nat>, other: seq<nat>, n: nat)
    requires Ascends(at) && Ascends(other) && forall k: nat :: k in at <==> k in other
    requires n < |at| && n < |other| && at[..n] == other[..n]
    ensures at[n] >= other[n]
  {
    SamePrefix(at, other, n);
    NoneBefore(at, n);
    MemberAt(at, n);
    var j :| 0 <= j < |other| && other[j] == at[n];
  }

  lemma NoneBefore(at: seq<nat>, n: nat)
    requires Ascends(at) && n < |at|
    ensures forall j :: 0 <= j < n ==> at[j] != at[n]
  {
  }

  lemma {:induction false} SameUpTo(at: seq<nat>, other: seq<nat>, n: nat)
    requires Ascends(at) && Ascends(other) && forall k: nat :: k in at <==> k in other
    requires n <= |at| && n <= |other|
    ensures at[..n] == other[..n]
  {
    if n > 0 {
      var m := n - 1;
      SameUpTo(at, other, m);
      NextBound(at, other, m);
      NextBound(other, at, m);
    }
  }

  lemma NoLonger(at: seq<nat>, other: seq<nat>)
    requires Ascends(at) && Ascends(other) && forall k: nat :: k in at <==> k in other
    ensures |at| <= |other|
  {
    if |at| > |other| {
      var n := |other|;
      SameUpTo(at, other, n);
      SamePrefix(at, other, n);
      MemberAt(at, n);
    }
  }

  lemma MemberAt(at: seq<nat>, n: nat)
    requires n < |at|
    ensures at[n] in at
  {
  }

  lemma PositionsAreUnique<T(!new)>(xs: seq<T>, wanted: T -> bool, at: seq<nat>, other: seq<nat>)
    requires Positions(xs, wanted, at) && Positions(xs, wanted, other)
    ensures at == other
  {
    SameMembers(xs, wanted, at, other);
    NoLonger(at, other);
    NoLonger(other, at);
    SameUpTo(at, other, |at|);
    assert at[..|at|] == at && other[..|at|] == other;
  }

  /** One command lists its own name, if it is of these kinds. */
  lemma OneName(c: Command, kinds: set<nat>)
    ensures Lists([c], kinds, if c.Naming? && c.kind in kinds then [c.name] else [])
  {
    var at: seq<nat> := if c.Naming? && c.kind in kinds then [0] else [];
    OnePosition(c, NamedBy(kinds));
    assert NamesAt([c], at, if c.Naming? && c.kind in kinds then [c.name] else []);
  }

  lemma ListsAppend(pre: seq<Command>, post: seq<Command>, kinds: set<nat>, p: seq<Name>, q: seq<Name>)
    requires Lists(pre, kinds, p) && Lists(post, kinds, q)
    ensures Lists(pre + post, kinds, p + q)
  {
    var at :| Positions(pre, NamedBy(kinds), at) && NamesAt(pre, at, p);
    var at' :| Positions(post, NamedBy(kinds), at') && NamesAt(post, at', q);
    ListsAppendAt(pre, post, kinds, p, q, at, at');
  }

  lemma ListsAppendAt(pre: seq<Command>, post: seq<Command>, kinds: set<nat>, p: seq<Name>, q: seq<Name>, at: seq<nat>, at': seq<nat>)
    requires Positions(pre, NamedBy(kinds), at) && NamesAt(pre, at, p)
    requires Positions(post, NamedBy(kinds), at') && NamesAt(post, at', q)
    ensures Lists(pre + post, kinds, p + q)
  {
    var n := |pre|;
    var shifted := seq(|at'|, j requires 0 <= j < |at'| => n + at'[j]);
    PositionsAppend(pre, post, NamedBy(kinds), at, at', shifted);
    NamesAppended(pre, post, at, at', shifted, p, q);
    NamesAreAt(pre + post, kinds, p + q, at + shifted);
  }

  lemma NamesAreAt(cs: seq<Command>, kinds: set<nat>, names: seq<Name>, at: seq<nat>)
    requires Positions(cs, NamedBy(kinds), at) && NamesAt(cs, at, names)
    ensures Lists(cs, kinds, names)
  {
  }

  lemma NamesAppended(pre: seq<Command>, post: seq<Command>, at: seq<nat>, at': seq<nat>, shifted: seq<nat>, p: seq<Name>, q: seq<Name>)
    requires NamesAt(pre, at, p) && NamesAt(post, at', q)
    requires |shifted| == |at'| && forall j :: 0 <= j < |at'| ==> shifted[j] == |pre| + at'[j]
    ensures NamesAt(pre + post, at + shifted, p + q)
  {
    forall j | 0 <= j < |at + shifted|
      ensures
        && (at + shifted)[j] < |pre + post|
        && var c := (pre + post)[(at + shifted)[j]];
           c.Naming? && c.name == (p + q)[j]
    {
      if j >= |at| {
        assert (at + shifted)[j] == |pre| + at'[j - |at|];
      }
    }
  }

  lemma ListIsUnique(cs: seq<Command>, kinds: set<nat>, names: seq<Name>, other: seq<Name>)
    requires Lists(cs, kinds, names) && Lists(cs, kinds, other)
    ensures names == other
  {
    var at :| Positions(cs, NamedBy(kinds), at) && NamesAt(cs, at, names);
    var at' :| Positions(cs, NamedBy(kinds), at') && NamesAt(cs, at', other);
    PositionsAreUnique(cs, NamedBy(kinds), at, at');
  }

  ghost function KindsOf(rpaths: bool): set<nat> {
    if rpaths then {0x8000_001C} else {0xC, 0x8000_0018, 0x8000_001F, 0x8000_0023, 0x20}
  }

  lemma NamesAppend(cs: seq<Command>, c: Command, rpaths: bool)
    ensures Names(cs + [c], rpaths) == Names(cs, rpaths) + NameIn(c, rpaths)
  {
    if cs == [] {
      assert [] + [c] == [c] && [c][1..] == [];
      assert NameIn(c, rpaths) + [] == [] + NameIn(c, rpaths);
    } else {
      NamesAppend(cs[1..], c, rpaths);
      assert (cs + [c])[1..] == cs[1..] + [c];
    }
  }

  lemma NameByKind(c: Command, rpaths: bool)
    requires LegalBody(c)
    ensures NameIn(c, rpaths) == if c.Naming? && c.kind in KindsOf(rpaths) then [c.name] else []
  {
  }

  lemma {:induction false} NamesAreListed(cs: seq<Command>, rpaths: bool)
    requires forall k :: 0 <= k < |cs| ==> LegalBody(cs[k])
    ensures Lists(cs, KindsOf(rpaths), Names(cs, rpaths))
  {
    if cs == [] {
      NoPositions(NamedBy(KindsOf(rpaths)));
      assert NamesAt(cs, [], []);
    } else {
      var last := |cs| - 1;
      var most, c := cs[..last], cs[last];
      assert cs == most + [c];
      NamesAreListed(most, rpaths);
      NamesAppend(most, c, rpaths);
      NameByKind(c, rpaths);
      OneName(c, KindsOf(rpaths));
      ListsAppend(most, [c], KindsOf(rpaths), Names(most, rpaths), NameIn(c, rpaths));
    }
  }

  lemma LegalBodies(i: Image)
    requires LegalImage(i)
    ensures forall k :: 0 <= k < |i.commands| ==> LegalBody(i.commands[k])
  {
    forall k | 0 <= k < |i.commands|
      ensures LegalBody(i.commands[k])
    {
      assert LegalCommand(i.little)(i.commands[k]);
    }
  }

  lemma NamesIff(cs: seq<Command>, rpaths: bool, names: seq<Name>)
    requires forall k :: 0 <= k < |cs| ==> LegalBody(cs[k])
    ensures Names(cs, rpaths) == names <==> Lists(cs, KindsOf(rpaths), names)
  {
    NamesAreListed(cs, rpaths);
    if Lists(cs, KindsOf(rpaths), names) {
      ListIsUnique(cs, KindsOf(rpaths), Names(cs, rpaths), names);
    }
  }

  lemma ReportIff(i: Image, a: Audit)
    requires LegalImage(i)
    ensures Finish(Ok(i.commands), NOTHING) == Ok(a) <==> Reports(i, a)
  {
    var cs := i.commands;
    VersionIsLast(cs, None, a.minimum);
    LegalBodies(i);
    NamesIff(cs, true, a.rpaths);
    NamesIff(cs, false, a.dependencies);
    var libraries, paths := Names(cs, false), Names(cs, true);
    assert [] + libraries == libraries && [] + paths == paths;
  }

  lemma ReportedIf(file: seq<Byte>, i: Image, a: Audit)
    requires HasImage(file, i)
    ensures Inspect(file) == Ok(a) <==> Reports(i, a)
  {
    ReadIffHasImage(file, i);
    ReportIff(i, a);
  }

  /** A file passes with this report exactly when it is a form of an image with this report. */
  lemma AcceptedIff(file: seq<Byte>, a: Audit)
    ensures Inspect(file) == Ok(a) <==> exists i :: HasImage(file, i) && Reports(i, a)
  {
    if Inspect(file).Ok? {
      ReadIffHasImage(file, ReadFile(file).value);
      ReportedIf(file, ReadFile(file).value, a);
    }
    if i :| HasImage(file, i) && Reports(i, a) {
      ReportedIf(file, i, a);
    }
  }

  lemma OneMoreName(most: seq<Command>, c: Command, kinds: set<nat>, before: seq<Name>) returns (names: seq<Name>)
    requires Lists(most, kinds, before)
    ensures Lists(most + [c], kinds, names)
  {
    var mine := if c.Naming? && c.kind in kinds then [c.name] else [];
    OneName(c, kinds);
    ListsAppend(most, [c], kinds, before, mine);
    names := before + mine;
  }

  lemma NoNames(kinds: set<nat>)
    ensures Lists([], kinds, [])
  {
    NoPositions(NamedBy(kinds));
    assert NamesAt([], [], []);
  }

  lemma {:induction false} SomeList(cs: seq<Command>, kinds: set<nat>) returns (names: seq<Name>)
    ensures Lists(cs, kinds, names)
  {
    if cs == [] {
      names := [];
      NoNames(kinds);
    } else {
      var last := |cs| - 1;
      var most, c := cs[..last], cs[last];
      var before := SomeList(most, kinds);
      assert cs == most + [c];
      names := OneMoreName(most, c, kinds, before);
    }
  }

  /** The names `mine` stand behind those of the commands `pre` and in front of those of `post`. */
  ghost predicate Between(pre: seq<Command>, mine: seq<Name>, post: seq<Command>, kinds: set<nat>, all: seq<Name>) {
    exists p, q :: Lists(pre, kinds, p) && Lists(post, kinds, q) && all == p + mine + q
  }

  /**
    In the report of an accepted file a command's name is among the search paths exactly when its kind is 0x8000001C,
    behind those of the commands before it and in front of those of the commands after it.
   */
  lemma SearchPathIsReported(file: seq<Byte>, i: Image, a: Audit, pre: seq<Command>, c: Command, post: seq<Command>)
    requires HasImage(file, i) && Inspect(file) == Ok(a) && i.commands == pre + [c] + post
    ensures Between(pre, if c.Naming? && c.kind == 0x8000_001C then [c.name] else [], post, {0x8000_001C}, a.rpaths)
  {
    ReportLists(file, i, a, pre, c, post);
    NameBetween(pre, c, post, {0x8000_001C}, a.rpaths);
  }

  /** And it is among the libraries exactly when its kind is one of the other five. */
  lemma LibraryIsReported(file: seq<Byte>, i: Image, a: Audit, pre: seq<Command>, c: Command, post: seq<Command>)
    requires HasImage(file, i) && Inspect(file) == Ok(a) && i.commands == pre + [c] + post
    ensures
      var kinds := {0xC, 0x8000_0018, 0x8000_001F, 0x8000_0023, 0x20};
      Between(pre, if c.Naming? && c.kind in kinds then [c.name] else [], post, kinds, a.dependencies)
  {
    ReportLists(file, i, a, pre, c, post);
    NameBetween(pre, c, post, {0xC, 0x8000_0018, 0x8000_001F, 0x8000_0023, 0x20}, a.dependencies);
  }

  lemma ReportLists(file: seq<Byte>, i: Image, a: Audit, pre: seq<Command>, c: Command, post: seq<Command>)
    requires HasImage(file, i) && Inspect(file) == Ok(a) && i.commands == pre + [c] + post
    ensures Lists(pre + [c] + post, {0x8000_001C}, a.rpaths)
    ensures Lists(pre + [c] + post, {0xC, 0x8000_0018, 0x8000_001F, 0x8000_0023, 0x20}, a.dependencies)
  {
    ReportedIf(file, i, a);
  }

  lemma NameBetween(pre: seq<Command>, c: Command, post: seq<Command>, kinds: set<nat>, all: seq<Name>)
    requires Lists(pre + [c] + post, kinds, all)
    ensures Between(pre, if c.Naming? && c.kind in kinds then [c.name] else [], post, kinds, all)
  {
    var p := SomeList(pre, kinds);
    var q := SomeList(post, kinds);
    var mine := if c.Naming? && c.kind in kinds then [c.name] else [];
    OneName(c, kinds);
    ListsAppend(pre, [c], kinds, p, mine);
    ListsAppend(pre + [c], post, kinds, p + mine, q);
    ListIsUnique(pre + [c] + post, kinds, all, p + mine + q);
  }

  /** Any legal commands with a version, printed as a thin file, come back from the reader. */
  lemma ThinRoundTrip(i: Image, trailing: seq<Byte>, a: Audit)
    requires LegalImage(i) && Reports(i, a)
    ensures Inspect(PrintImage(i) + trailing) == Ok(a)
  {
    var file := PrintImage(i) + trailing;
    assert ThinFile(file, i);
    ReportedIf(file, i, a);
  }

  /** Printed entries have their size and stand in front of the rest. */
  lemma {:induction false} EntriesInFront(little: bool, wide: bool, entries: seq<Entry>, rest: seq<Byte>) returns (head: seq<Byte>)
    requires forall j :: 0 <= j < |entries| ==> |entries[j]| == |Widths(wide)|
    ensures PrintMany(EntryPrinter(little, wide), entries, rest) == head + rest
    ensures |head| == TableSize(|entries|, wide)
  {
    if entries == [] {
      head := [];
    } else {
      var tail := EntriesInFront(little, wide, entries[1..], rest);
      EntryWidths(wide);
      var first := Pack(Widths(wide), entries[0], little);
      head := first + tail;
      RegroupThree(first, tail, rest);
    }
  }

  lemma EntriesHaveWidths(t: Table, fileSize: nat)
    requires LegalTable(t, fileSize)
    ensures forall j :: 0 <= j < |t.entries| ==> |t.entries[j]| == |Widths(t.wide)|
  {
    var legal := LegalEntry(t.wide, TableBounds(|t.entries|, t.wide, fileSize));
    assert All(legal, t.entries);
    forall j | 0 <= j < |t.entries|
      ensures |t.entries[j]| == |Widths(t.wide)|
    {
      assert legal(t.entries[j]);
    }
  }

  lemma Regroup(magic: seq<Byte>, count: seq<Byte>, entries: seq<Byte>, rest: seq<Byte>)
    ensures magic + (count + (entries + rest)) == (magic + (count + entries)) + rest
  {
  }

  /** Everything in front of what follows a table. */
  lemma TableInFront(t: Table, rest: seq<Byte>) returns (head: seq<Byte>)
    requires forall j :: 0 <= j < |t.entries| ==> |t.entries[j]| == |Widths(t.wide)|
    ensures FatMagic(t.little, t.wide) + PrintTable(t, rest) == head + rest
    ensures |head| == 8 + TableSize(|t.entries|, t.wide)
  {
    var entries := EntriesInFront(t.little, t.wide, t.entries, rest);
    var magic, count := FatMagic(t.little, t.wide), Bytes(|t.entries|, 4, t.little);
    Regroup(magic, count, entries, rest);
    head := magic + (count + entries);
  }

  /** A file that begins with a table and holds the image behind some more bytes. */
  lemma ImageBehindTable(file: seq<Byte>, t: Table, rest: seq<Byte>, k: nat, before: seq<Byte>, i: Image, trailing: seq<Byte>)
    requires FatTable(file, t, rest, k) && file == before + (PrintImage(i) + trailing)
    requires SliceOf(t.entries[k]).offset == |before| && SliceOf(t.entries[k]).size >= |PrintImage(i)|
    requires LegalImage(i)
    ensures HasImage(file, i)
  {
    Split(file, before, PrintImage(i) + trailing);
    assert FatFile(file, t, rest, k, i);
  }

  lemma RegroupThree(a: seq<Byte>, b: seq<Byte>, c: seq<Byte>)
    ensures a + (b + c) == (a + b) + c
  {
  }

  /** And printed behind a table, where its one entry for this processor says, they come back too. */
  lemma FatRoundTrip(t: Table, k: nat, gap: seq<Byte>, i: Image, trailing: seq<Byte>, a: Audit)
    requires LegalImage(i) && Reports(i, a)
    requires OnlyArm64(t.entries, k)
    requires
      var offset := 8 + TableSize(|t.entries|, t.wide) + |gap|;
      && LegalTable(t, offset + |PrintImage(i)| + |trailing|)
      && t.entries[k][2] == offset && t.entries[k][3] >= |PrintImage(i)|
    ensures Inspect(FatMagic(t.little, t.wide) + PrintTable(t, gap + (PrintImage(i) + trailing))) == Ok(a)
  {
    var offset := 8 + TableSize(|t.entries|, t.wide) + |gap|;
    EntriesHaveWidths(t, offset + |PrintImage(i)| + |trailing|);
    var behind := PrintImage(i) + trailing;
    var head := TableInFront(t, gap + behind);
    var file := head + (gap + behind);
    RegroupThree(head, gap, behind);
    ImageBehindTable(file, t, gap + behind, k, head + gap, i, trailing);
    ReportedIf(file, i, a);
  }

  // ----- The formats, in numbers -----

  /** Four bytes, the least significant first or last. */
  function Four(v: nat, little: bool): seq<Byte> {
    var b0: Byte, b1: Byte := v % 0x100, v / 0x100 % 0x100;
    var b2: Byte, b3: Byte := v / 0x1_0000 % 0x100, v / 0x100_0000 % 0x100;
    if little then [b0, b1, b2, b3] else [b3, b2, b1, b0]
  }

  lemma BytesStep(v: nat, n: nat, m: nat, little: bool)
    requires n == m + 1
    ensures Bytes(v, n, little) == if little then [v % 0x100] + Bytes(v / 0x100, m, true) else Bytes(v / 0x100, m, false) + [v % 0x100]
  {
  }

  lemma DivideTwice(v: nat)
    ensures v / 0x100 / 0x100 == v / 0x1_0000
  {
  }

  lemma TwoSteps(v: nat, n: nat, m: nat, little: bool)
    requires n == m + 2
    ensures Bytes(v, n, little) == if little then Two(v, true) + Bytes(v / 0x1_0000, m, true) else Bytes(v / 0x1_0000, m, false) + Two(v, false)
  {
    BytesStep(v, n, m + 1, little);
    BytesStep(v / 0x100, m + 1, m, little);
    DivideTwice(v);
  }

  /** Two bytes, the less significant first or last. */
  function Two(v: nat, little: bool): seq<Byte> {
    var b0: Byte, b1: Byte := v % 0x100, v / 0x100 % 0x100;
    if little then [b0, b1] else [b1, b0]
  }

  lemma FourIsTwo(v: nat, high: nat, little: bool)
    requires high == v / 0x1_0000
    ensures Four(v, little) == if little then Two(v, true) + Two(high, true) else Two(high, false) + Two(v, false)
    ensures high / 0x1_0000 == v / 0x1_0000_0000
  {
    assert high / 0x100 == v / 0x100_0000;
  }

  /** Four fields of a byte each. */
  lemma FourSteps(v: nat, n: nat, m: nat, little: bool)
    requires n == m + 4
    ensures
      var high := Bytes(v / 0x1_0000_0000, m, little);
      Bytes(v, n, little) == if little then Four(v, true) + high else high + Four(v, false)
  {
    var w, k := v / 0x1_0000, m + 2;
    FourIsTwo(v, w, little);
    TwoSteps(v, n, k, little);
    TwoSteps(w, k, m, little);
    var rest := Bytes(w / 0x1_0000, m, little);
    if little {
      RegroupThree(Two(v, true), Two(w, true), rest);
    } else {
      RegroupThree(rest, Two(w, false), Two(v, false));
    }
  }

  /** 32-bit and 64-bit fields, byte by byte. */
  lemma FieldBytes(v: nat, little: bool)
    ensures Bytes(v, 4, little) == Four(v, little)
    ensures Bytes(v, 8, little) == if little then Four(v, true) + Four(v / 0x1_0000_0000, true) else Four(v / 0x1_0000_0000, false) + Four(v, false)
  {
    var high := v / 0x1_0000_0000;
    FourSteps(v, 4, 0, little);
    FourSteps(v, 8, 4, little);
    FourSteps(high, 4, 0, little);
    assert Four(v, little) + [] == Four(v, little) == [] + Four(v, little);
    assert Four(high, little) + [] == Four(high, little) == [] + Four(high, little);
  }

  lemma FrameForm(kind: nat, payload: seq<Byte>, rest: seq<Byte>, little: bool)
    ensures PrintFrame(kind, payload, rest, little) == Four(kind, little) + (Four(8 + |payload|, little) + (payload + rest))
  {
    FieldBytes(kind, little);
    FieldBytes(8 + |payload|, little);
  }

  /** The bytes of a naming command: kind, length, offset of the name, and the name with its zero byte where the offset says. */
  lemma NamingForm(c: Command, rest: seq<Byte>, little: bool)
    requires c.Naming?
    ensures
      var text := Utf8.EncodeScalars(c.name);
      var payload := Four(12 + |c.gap|, little) + (c.gap + (text + ([0] + c.slack)));
      && |payload| == 5 + |c.gap| + |text| + |c.slack|
      && PrintCommand(c, rest, little) == Four(c.kind, little) + (Four(8 + |payload|, little) + (payload + rest))
  {
    FieldBytes(12 + |c.gap|, little);
    FrameForm(c.kind, Payload(c, little), rest, little);
  }

  /** The bytes of the two version commands: 0x32 with the platform, which is 1, and 0x24. */
  lemma BuildVersionForm(c: Command, rest: seq<Byte>, little: bool)
    requires c.BuildVersion?
    ensures
      var payload := Four(1, little) + (Four(c.packed, little) + c.tail);
      && |payload| == 8 + |c.tail|
      && PrintCommand(c, rest, little) == Four(0x32, little) + (Four(8 + |payload|, little) + (payload + rest))
  {
    FieldBytes(1, little);
    FieldBytes(c.packed, little);
    FrameForm(0x32, Payload(c, little), rest, little);
  }

  lemma VersionMinForm(c: Command, rest: seq<Byte>, little: bool)
    requires c.VersionMin?
    ensures
      var payload := Four(c.packed, little) + c.tail;
      && |payload| == 4 + |c.tail|
      && PrintCommand(c, rest, little) == Four(0x24, little) + (Four(8 + |payload|, little) + (payload + rest))
  {
    FieldBytes(c.packed, little);
    FrameForm(0x24, Payload(c, little), rest, little);
  }

  lemma OtherForm(c: Command, rest: seq<Byte>, little: bool)
    requires c.Other?
    ensures PrintCommand(c, rest, little) == Four(c.kind, little) + (Four(8 + |c.payload|, little) + (c.payload + rest))
  {
    FrameForm(c.kind, c.payload, rest, little);
  }

  /** Which commands there are. A naming command has one of six kinds, no zero byte in its name, and a length that is a multiple of four. */
  lemma NamingIsLegalIff(kind: nat, gap: seq<Byte>, name: Name, slack: seq<Byte>, little: bool)
    ensures
      var length := 13 + |gap| + |Utf8.EncodeScalars(name)| + |slack|;
      Legal(Naming(kind, gap, name, slack), little)
      <==> && kind in {0xC, 0x8000_0018, 0x8000_001F, 0x8000_0023, 0x20, 0x8000_001C} && 0 !in name
           && length % 4 == 0 && length < 0x1_0000_0000
  {
    var c := Naming(kind, gap, name, slack);
    NamingSize(c, little);
    LegalIff(c, Payload(c, little), little);
    NamingKinds(kind);
  }

  lemma NamingKinds(kind: nat)
    ensures kind in NAMING <==> kind in {0xC, 0x8000_0018, 0x8000_001F, 0x8000_0023, 0x20, 0x8000_001C}
    ensures kind in NAMING ==> kind < 0x1_0000_0000
  {
  }

  lemma LegalIff(c: Command, payload: seq<Byte>, little: bool)
    requires payload == Payload(c, little)
    ensures Legal(c, little) <==> LegalBody(c) && Kind(c) < 0x1_0000_0000 && 8 + |payload| < 0x1_0000_0000 && |payload| % 4 == 0
  {
    LimitOfFour();
  }

  lemma NamingSize(c: Command, little: bool)
    requires c.Naming?
    ensures |Payload(c, little)| == 5 + |c.gap| + |Utf8.EncodeScalars(c.name)| + |c.slack|
  {
  }

  lemma LimitOfFour()
    ensures Limit(4) == 0x1_0000_0000
  {
  }

  /** A version command has its packed version and at least 8 more bytes, or 4. */
  lemma VersionIsLegalIff(packed: nat, tail: seq<Byte>, little: bool)
    ensures
      Legal(BuildVersion(packed, tail), little)
      <==> packed < 0x1_0000_0000 && |tail| >= 8 && |tail| % 4 == 0 && 16 + |tail| < 0x1_0000_0000
    ensures
      Legal(VersionMin(packed, tail), little)
      <==> packed < 0x1_0000_0000 && |tail| >= 4 && |tail| % 4 == 0 && 12 + |tail| < 0x1_0000_0000
  {
    assert Limit(4) == 0x1_0000_0000;
  }

  /** Any other command has another kind. */
  lemma OtherIsLegalIff(kind: nat, payload: seq<Byte>, little: bool)
    ensures
      Legal(Other(kind, payload), little)
      <==> && kind !in {0xC, 0x8000_0018, 0x8000_001F, 0x8000_0023, 0x20, 0x8000_001C, 0x32, 0x24}
           && kind < 0x1_0000_0000 && |payload| % 4 == 0 && 8 + |payload| < 0x1_0000_0000
  {
    assert Limit(4) == 0x1_0000_0000;
  }

  lemma SevenWords(vs: seq<nat>, little: bool)
    requires |vs| == 7
    ensures Pack(HEADER, vs, little) == Four(vs[0], little) + (Four(vs[1], little) + (Four(vs[2], little) + (Four(vs[3], little) + (Four(vs[4], little) + (Four(vs[5], little) + Four(vs[6], little))))))
    ensures Fit(HEADER, vs) <==> forall k :: 0 <= k < 7 ==> vs[k] < 0x1_0000_0000
  {
    PackFour([4, 4, 4, 4, 4, 4], vs, little);
    PackFour([4, 4, 4, 4, 4], vs[1..], little);
    PackFour([4, 4, 4, 4], vs[2..], little);
    PackFour([4, 4, 4], vs[3..], little);
    ThreeWords(vs[4..], little);
  }

  lemma ThreeWords(vs: seq<nat>, little: bool)
    requires |vs| == 3
    ensures Pack([4, 4, 4], vs, little) == Four(vs[0], little) + (Four(vs[1], little) + Four(vs[2], little))
    ensures Fit([4, 4, 4], vs) <==> vs[0] < 0x1_0000_0000 && vs[1] < 0x1_0000_0000 && vs[2] < 0x1_0000_0000
  {
    PackFour([4, 4], vs, little);
    PackFour([4], vs[1..], little);
    PackFour([], vs[2..], little);
    assert Four(vs[2], little) + [] == Four(vs[2], little);
  }

  lemma PackFour(widths: seq<nat>, vs: seq<nat>, little: bool)
    requires |vs| == |widths| + 1
    ensures Pack([4] + widths, vs, little) == Four(vs[0], little) + Pack(widths, vs[1..], little)
    ensures Fit([4] + widths, vs) <==> vs[0] < 0x1_0000_0000 && Fit(widths, vs[1..])
  {
    assert ([4] + widths)[1..] == widths;
    assert Limit(4) == 0x1_0000_0000;
    FieldBytes(vs[0], little);
  }

  /** The bytes of an image, and how large its parts may be. */
  lemma ImageForm(i: Image)
    ensures
      var area := PrintCommands(i.commands, i.little);
      && PrintImage(i)
         == (if i.little then [0xCF, 0xFA, 0xED, 0xFE] else [0xFE, 0xED, 0xFA, 0xCF])
            + ((Four(0x0100_000C, i.little) + (Four(i.subtype, i.little) + (Four(i.fileType, i.little) + (Four(|i.commands|, i.little)
              + (Four(|area|, i.little) + (Four(i.flags, i.little) + Four(i.reserved, i.little))))))) + area)
      && (LegalImage(i)
          <==> && (forall k :: 0 <= k < |i.commands| ==> Legal(i.commands[k], i.little))
               && |area| <= 16 * 1024 * 1024 && |i.commands| < 0x1_0000_0000
               && i.subtype < 0x1_0000_0000 && i.fileType < 0x1_0000_0000 && i.flags < 0x1_0000_0000 && i.reserved < 0x1_0000_0000)
  {
    var area := PrintCommands(i.commands, i.little);
    var vs := HeaderFields(i, area);
    SevenWords(vs, i.little);
    FieldsFit(i, area);
    assert AllLegal(i.commands, i.little) <==> forall k :: 0 <= k < |i.commands| ==> Legal(i.commands[k], i.little) by {
      assert forall k :: 0 <= k < |i.commands| ==> LegalCommand(i.little)(i.commands[k]) == Legal(i.commands[k], i.little);
    }
  }

  lemma FieldsFit(i: Image, area: seq<Byte>)
    ensures
      (forall k :: 0 <= k < 7 ==> HeaderFields(i, area)[k] < 0x1_0000_0000)
      <==> && i.subtype < 0x1_0000_0000 && i.fileType < 0x1_0000_0000 && |i.commands| < 0x1_0000_0000
           && |area| < 0x1_0000_0000 && i.flags < 0x1_0000_0000 && i.reserved < 0x1_0000_0000
  {
    var vs := HeaderFields(i, area);
    if forall k :: 0 <= k < 7 ==> vs[k] < 0x1_0000_0000 {
      assert vs[1] == i.subtype && vs[2] == i.fileType && vs[3] == |i.commands|;
      assert vs[4] == |area| && vs[5] == i.flags && vs[6] == i.reserved;
    }
  }

  function Eight(v: nat, little: bool): seq<Byte> {
    if little then Four(v, true) + Four(v / 0x1_0000_0000, true) else Four(v / 0x1_0000_0000, false) + Four(v, false)
  }

  lemma PackEight(widths: seq<nat>, vs: seq<nat>, little: bool)
    requires |vs| == |widths| + 1
    ensures Pack([8] + widths, vs, little) == Eight(vs[0], little) + Pack(widths, vs[1..], little)
    ensures Fit([8] + widths, vs) <==> vs[0] < 0x1_0000_0000_0000_0000 && Fit(widths, vs[1..])
  {
    assert ([8] + widths)[1..] == widths;
    assert Limit(4) == 0x1_0000_0000;
    assert Limit(8) == 0x1_0000_0000_0000_0000 by {
      LimitSteps();
    }
    FieldBytes(vs[0], little);
  }

  lemma LimitSteps()
    ensures Limit(8) == 0x1_0000_0000_0000_0000
  {
    assert Limit(4) == 0x1_0000_0000;
    assert Limit(6) == 0x100 * Limit(5) && Limit(8) == 0x100 * Limit(7);
  }

  /** The bytes of an entry of the narrow table, and when it is accepted: its slice lies behind the table and in the file. */
  lemma NarrowEntryForm(e: Entry, rest: seq<Byte>, little: bool, count: nat, fileSize: nat)
    requires |e| == 5
    ensures
      EntryPrinter(little, false)(e, rest)
      == (Four(e[0], little) + (Four(e[1], little) + (Four(e[2], little) + (Four(e[3], little) + Four(e[4], little))))) + rest
    ensures
      LegalEntry(false, TableBounds(count, false, fileSize))(e)
      <==> && e[0] < 0x1_0000_0000 && e[1] < 0x1_0000_0000 && e[2] < 0x1_0000_0000 && e[3] < 0x1_0000_0000 && e[4] < 0x1_0000_0000
           && 8 + count * 20 <= e[2] && e[2] + e[3] <= fileSize
  {
    PackFour([4, 4, 4, 4], e, little);
    PackFour([4, 4, 4], e[1..], little);
    ThreeWords(e[2..], little);
  }

  /** And of the wide table, whose offsets and sizes have 64 bits. */
  lemma WideEntryForm(e: Entry, rest: seq<Byte>, little: bool, count: nat, fileSize: nat)
    requires |e| == 6
    ensures
      EntryPrinter(little, true)(e, rest)
      == (Four(e[0], little) + (Four(e[1], little) + (Eight(e[2], little) + (Eight(e[3], little) + (Four(e[4], little) + Four(e[5], little)))))) + rest
    ensures
      LegalEntry(true, TableBounds(count, true, fileSize))(e)
      <==> && e[0] < 0x1_0000_0000 && e[1] < 0x1_0000_0000 && e[4] < 0x1_0000_0000 && e[5] < 0x1_0000_0000
           && e[2] < 0x1_0000_0000_0000_0000 && e[3] < 0x1_0000_0000_0000_0000
           && 8 + count * 32 <= e[2] && e[2] + e[3] <= fileSize
  {
    WidePacked(e, little);
  }

  lemma WidePacked(e: Entry, little: bool)
    requires |e| == 6
    ensures
      Pack([4, 4, 8, 8, 4, 4], e, little)
      == Four(e[0], little) + (Four(e[1], little) + (Eight(e[2], little) + (Eight(e[3], little) + (Four(e[4], little) + Four(e[5], little)))))
    ensures
      Fit([4, 4, 8, 8, 4, 4], e)
      <==> && e[0] < 0x1_0000_0000 && e[1] < 0x1_0000_0000 && e[4] < 0x1_0000_0000 && e[5] < 0x1_0000_0000
           && e[2] < 0x1_0000_0000_0000_0000 && e[3] < 0x1_0000_0000_0000_0000
  {
    PackFour([4, 8, 8, 4, 4], e, little);
    PackFour([8, 8, 4, 4], e[1..], little);
    PackEight([8, 4, 4], e[2..], little);
    PackEight([4, 4], e[3..], little);
    PackFour([4], e[4..], little);
    PackFour([], e[5..], little);
    assert Four(e[5], little) + [] == Four(e[5], little);
  }

  /** The bytes of a table: one of four magic numbers, the number of entries, and the entries. */
  lemma TableForm(t: Table, rest: seq<Byte>, fileSize: nat)
    ensures
      FatMagic(t.little, t.wide) + PrintTable(t, rest)
      == (match (t.little, t.wide)
          case (false, false) => [0xCA, 0xFE, 0xBA, 0xBE]
          case (true, false) => [0xBE, 0xBA, 0xFE, 0xCA]
          case (false, true) => [0xCA, 0xFE, 0xBA, 0xBF]
          case (true, true) => [0xBF, 0xBA, 0xFE, 0xCA])
         + (Four(|t.entries|, t.little) + PrintMany(EntryPrinter(t.little, t.wide), t.entries, rest))
    ensures
      LegalTable(t, fileSize)
      <==> && 1 <= |t.entries| <= 64
           && forall j :: 0 <= j < |t.entries| ==> LegalEntry(t.wide, TableBounds(|t.entries|, t.wide, fileSize))(t.entries[j])
  {
    FieldBytes(|t.entries|, t.little);
  }

  // ----- What is wrong with a file that is refused -----

  lemma FirstFields(bs: seq<Byte>, little: bool)
    requires |bs| == 28 == Total(HEADER)
    ensures Unpack(HEADER, bs, little)[0] == First(bs, little) && Unpack(HEADER, bs, little)[4] == First(bs[16..], little)
  {
    UnpackFour([4, 4, 4, 4, 4, 4], bs, little);
    UnpackFour([4, 4, 4, 4, 4], bs[4..], little);
    UnpackFour([4, 4, 4, 4], bs[4..][4..], little);
    UnpackFour([4, 4, 4], bs[4..][4..][4..], little);
    assert bs[4..][4..][4..][4..] == bs[16..];
    UnpackFour([4, 4], bs[16..], little);
  }

  lemma UnpackFour(widths: seq<nat>, bs: seq<Byte>, little: bool)
    requires |bs| == 4 + Total(widths)
    ensures Total([4] + widths) == |bs|
    ensures Unpack([4] + widths, bs, little) == [First(bs, little)] + Unpack(widths, bs[4..], little)
  {
    assert ([4] + widths)[1..] == widths;
  }

  /** The head of an image: the magic number, seven more words, the processor, and commands that fit. */
  lemma ImageFaults(stream: seq<Byte>, sliceSize: nat)
    ensures
      var r := ReadImage(stream, sliceSize);
      var little := [0xCF, 0xFA, 0xED, 0xFE] <= stream;
      var known := little || [0xFE, 0xED, 0xFA, 0xCF] <= stream;
      && (r == Err(NotMachO) <==> !known)
      && (r == Err(TruncatedHeader) <==> known && |stream| < 32)
      && (r == Err(BadHeader)
          <==> known && |stream| >= 32
               && var bytes := First(stream[20..], little);
                  First(stream[4..], little) != 0x0100_000C || bytes > 16 * 1024 * 1024 || 32 + bytes > sliceSize)
  {
    var little := [0xCF, 0xFA, 0xED, 0xFE] <= stream;
    MagicIs(stream);
    HeaderIsSevenWords();
    HeaderFaults(Drop(stream, 4), sliceSize, little);
    if |stream| >= 32 {
      assert Drop(stream, 4) == stream[4..] && stream[4..][16..] == stream[20..];
    }
    ReadFaults(stream, sliceSize);
  }

  lemma HeaderFaults(rest: seq<Byte>, sliceSize: nat, little: bool)
    ensures
      var r := ReadHeader(rest, sliceSize, little);
      && (r.Err? ==> r.error in {TruncatedHeader, BadHeader})
      && (r == Err(TruncatedHeader) <==> |rest| < 28)
      && (|rest| >= 28 ==>
            var bytes := First(rest[16..], little);
            r.Err? <==> First(rest, little) != 0x0100_000C || bytes > 16 * 1024 * 1024 || 32 + bytes > sliceSize)
  {
    HeaderIsSevenWords();
    if |rest| >= 28 {
      var header := rest[..28];
      FirstFields(header, little);
      assert header[..4] == rest[..4] && header[16..][..4] == rest[16..][..4];
    }
  }

  lemma MagicIs(stream: seq<Byte>)
    ensures Take(stream, 4) == Magic(true) <==> [0xCF, 0xFA, 0xED, 0xFE] <= stream
    ensures Take(stream, 4) == Magic(false) <==> [0xFE, 0xED, 0xFA, 0xCF] <= stream
  {
  }

  /** Repetition has the faults of what is repeated. */
  lemma {:induction false} ManyFaults<T(!new)>(read: Reader<T>, faults: set<Fault>, count: nat, bs: seq<Byte>)
    requires forall rest :: read(rest).Err? ==> read(rest).error in faults
    ensures ReadMany(read, count, bs).Err? ==> ReadMany(read, count, bs).error in faults
  {
    if count > 0 {
      var head := read(bs);
      if head.Ok? {
        ManyFaults(read, faults, count - 1, head.value.1);
      }
    }
  }

  const COMMAND_FAULTS: set<Fault> := {TruncatedCommandHeader, BadCommandSize, TruncatedNameCommand, BadNameOffset, NameNotUtf8,
                                       TruncatedVersion, NotForMacOS, NoVersionOrBadCount}

  lemma OneCommandFaults(area: seq<Byte>, little: bool)
    ensures ReadCommand(area, little).Err? ==> ReadCommand(area, little).error in COMMAND_FAULTS
  {
  }

  lemma CommandFaults(area: seq<Byte>, count: nat, little: bool)
    ensures ReadCommands(area, count, little).Err? ==> ReadCommands(area, count, little).error in COMMAND_FAULTS
  {
    var read := CommandReader(little);
    forall rest
      ensures read(rest).Err? ==> read(rest).error in COMMAND_FAULTS
    {
      OneCommandFaults(rest, little);
    }
    ManyFaults(read, COMMAND_FAULTS, count, area);
  }

  lemma ReadFaults(stream: seq<Byte>, sliceSize: nat)
    ensures
      var magic := Take(stream, 4);
      var little := magic == Magic(true);
      var header := ReadHeader(Drop(stream, 4), sliceSize, little);
      var r := ReadImage(stream, sliceSize);
      if magic != Magic(true) && magic != Magic(false) then r == Err(NotMachO)
      else if header.Err? then r == Err(header.error)
      else r.Err? ==> r.error.TruncatedCommands? || r.error in COMMAND_FAULTS
  {
    var little := Take(stream, 4) == Magic(true);
    var header := ReadHeader(Drop(stream, 4), sliceSize, little);
    if header.Ok? {
      var area := Take(Drop(stream, 32), header.value[4]);
      CommandFaults(area, header.value[3], little);
    }
  }

  /** A command's frame: eight bytes, and a length that is a multiple of four, holds them and fits. */
  lemma FrameFaults(area: seq<Byte>, little: bool)
    ensures
      var r := ReadFrame(area, little);
      && (r == Err(TruncatedCommandHeader) <==> |area| < 8)
      && (r == Err(BadCommandSize)
          <==> |area| >= 8 && var length := First(area[4..], little); length < 8 || length % 4 != 0 || length > |area|)
      && (r.Err? ==> r.error in {TruncatedCommandHeader, BadCommandSize})
  {
  }

  /** A naming command's offset leads behind the offset itself and into the command, to a zero byte, and what stands before that is UTF-8. */
  lemma NamingFaults(kind: nat, payload: seq<Byte>, little: bool)
    ensures
      var r := ReadNaming(kind, payload, little);
      && (r == Err(TruncatedNameCommand) <==> |payload| < 4)
      && (|payload| >= 4 ==>
            var offset := First(payload, little);
            r == Err(BadNameOffset) <==> !(12 <= offset < 8 + |payload|) || 0 !in payload[offset - 8..])
      && (r.Err? ==> r.error in {TruncatedNameCommand, BadNameOffset, NameNotUtf8})
  {
    if |payload| >= 4 {
      var offset := First(payload, little);
      if 12 <= offset < 8 + |payload| {
        var text := payload[offset - 8..];
        assert text == payload[4..][offset - 12..];
        HasZeroIff(text);
      }
    }
  }

  lemma {:induction false} HasZeroIff(text: seq<Byte>)
    ensures SplitAtZero(text).Some? <==> 0 in text
  {
    if text != [] {
      HasZeroIff(text[1..]);
      assert text == [text[0]] + text[1..];
    }
  }

  /** A version command is long enough, and the first one is for platform 1. */
  lemma VersionFaults(payload: seq<Byte>, little: bool)
    ensures
      var r := ReadBody(0x32, payload, little);
      && (r == Err(TruncatedVersion) <==> |payload| < 16)
      && (r == Err(NotForMacOS) <==> |payload| >= 16 && First(payload, little) != 1)
    ensures ReadBody(0x24, payload, little) == Err(TruncatedVersion) <==> |payload| < 8
  {
  }

  /** A table: whole, of 1 to 64 entries, whose slices lie behind it and in the file, one of them for this processor. */
  lemma TableFaults(stream: seq<Byte>, little: bool, wide: bool, fileSize: nat)
    ensures
      var r := ReadTable(little, wide, stream, fileSize);
      && (r == Err(TruncatedFatHeader) <==> |stream| < 4)
      && (r == Err(BadArchitectureCount) <==> |stream| >= 4 && !(1 <= First(stream, little) <= 64))
      && (r.Err? ==> r.error in {TruncatedFatHeader, BadArchitectureCount, TruncatedTable, SliceEscapes})
  {
    if |stream| >= 4 {
      EntriesFault(little, wide, TableBounds(First(stream, little), wide, fileSize), First(stream, little), stream[4..]);
    }
  }

  lemma EntriesFault(little: bool, wide: bool, b: Bounds, count: nat, stream: seq<Byte>)
    ensures
      var r := ReadMany(EntryReader(little, wide, b), count, stream);
      r.Err? ==> r.error in {TruncatedTable, SliceEscapes}
  {
    ManyFaults(EntryReader(little, wide, b), {TruncatedTable, SliceEscapes}, count, stream);
  }

  // ----- The reader -----

  ghost function Chosen(r: Result<(seq<Entry>, seq<Byte>), Fault>, slices: seq<Slice>): Result<Slice, Fault> {
    if r.Err? then Err(r.error) else ChooseSlice(slices + Arm64Slices(r.value.0))
  }

  lemma ChosenStep(head: Entry, r: Result<(seq<Entry>, seq<Byte>), Fault>, slices: seq<Slice>)
    requires r.Ok? && |head| >= 4
    ensures
      Chosen(Ok(([head] + r.value.0, r.value.1)), slices)
      == Chosen(r, if IsArm64(head) then slices + [SliceOf(head)] else slices)
  {
    var rest := Arm64Slices(r.value.0);
    assert ([head] + r.value.0)[1..] == r.value.0;
    assert slices + ([SliceOf(head)] + rest) == (slices + [SliceOf(head)]) + rest;
    assert slices + ([] + rest) == slices + rest;
  }

  /** One entry read, the rest still to be. */
  lemma EntryIsChosen(read: Reader<Entry>, n: nat, bs: seq<Byte>, head: Entry, rest: seq<Byte>, slices: seq<Slice>)
    requires n > 0 && read(bs) == Ok((head, rest)) && |head| >= 4
    ensures
      Chosen(ReadMany(read, n, bs), slices)
      == Chosen(ReadMany(read, n - 1, rest), if IsArm64(head) then slices + [SliceOf(head)] else slices)
  {
    var tail := ReadMany(read, n - 1, rest);
    if tail.Ok? {
      ChosenStep(head, tail, slices);
    }
  }

  method NextEntry(stream: seq<Byte>, little: bool, wide: bool, count: nat, fileSize: nat) returns (r: Result<Entry, Fault>)
    ensures
      var e := ReadEntry(little, wide, TableBounds(count, wide, fileSize), stream);
      if e.Err? then r == Err(e.error) else r == Ok(e.value.0) && e.value.1 == Drop(stream, EntrySize(wide))
    ensures r.Ok? ==> |r.value| >= 4
  {
    var bytes := Take(stream, EntrySize(wide));
    if |bytes| != EntrySize(wide) {
      return Err(TruncatedTable);
    }
    EntryWidths(wide);
    var fields := Unpack(Widths(wide), bytes, little);
    var offset, size := fields[2], fields[3];
    if offset < 8 + TableSize(count, wide) || offset + size > fileSize {
      return Err(SliceEscapes);
    }
    return Ok(fields);
  }

  method FindSlice(stream: seq<Byte>, little: bool, wide: bool, fileSize: nat) returns (r: Result<Slice, Fault>)
    ensures
      var table := ReadTable(little, wide, stream, fileSize);
      r == if table.Err? then Err(table.error) else ChooseSlice(Arm64Slices(table.value.0.entries))
  {
    var countBytes, rest := Take(stream, 4), Drop(stream, 4);
    if |countBytes| != 4 {
      return Err(TruncatedFatHeader);
    }
    var count := Number(countBytes, little);
    if !(1 <= count <= 64) {
      return Err(BadArchitectureCount);
    }
    var slices := [];
    var i := 0;
    ghost var b := TableBounds(count, wide, fileSize);
    ghost var read := EntryReader(little, wide, b);
    ghost var whole := ReadMany(read, count, rest);
    while i < count
      invariant 0 <= i <= count
      invariant Chosen(whole, []) == Chosen(ReadMany(read, count - i, rest), slices)
    {
      var entry := NextEntry(rest, little, wide, count, fileSize);
      if entry.Err? {
        return Err(entry.error);
      }
      var fields := entry.value;
      EntryIsChosen(read, count - i, rest, fields, Drop(rest, EntrySize(wide)), slices);
      if fields[0] == ARM64 {
        slices := slices + [Slice(fields[2], fields[3])];
      }
      rest := Drop(rest, EntrySize(wide));
      i := i + 1;
    }
    r := ChooseSlice(slices);
  }

  lemma {:induction false} NoZero(text: seq<Byte>)
    requires 0 !in text
    ensures SplitAtZero(text).None?
  {
    if text != [] {
      NoZero(text[1..]);
    }
  }

  lemma FirstZero(text: seq<Byte>, n: nat)
    requires n < |text| && text[n] == 0 && 0 !in text[..n]
    ensures SplitAtZero(text) == Some((text[..n], text[n + 1..]))
  {
    assert text == text[..n] + ([0] + text[n + 1..]);
    SplitAtZeroIff(text, text[..n], text[n + 1..]);
  }

  /** The name of a naming command, from its bytes after kind and length. */
  method LoaderName(payload: seq<Byte>, little: bool, ghost kind: nat) returns (r: Result<Name, Fault>)
    ensures
      var c := ReadNaming(kind, payload, little);
      if c.Err? then r == Err(c.error) else c.value.Naming? && c.value.kind == kind && r == Ok(c.value.name)
  {
    if |payload| < 4 {
      return Err(TruncatedNameCommand);
    }
    var offset := First(payload, little);
    if !(12 <= offset < 8 + |payload|) {
      return Err(BadNameOffset);
    }
    var text := payload[4..][offset - 12..];
    var n := 0;
    while n < |text| && text[n] != 0
      invariant 0 <= n <= |text| && 0 !in text[..n]
    {
      n := n + 1;
    }
    if n == |text| {
      NoZero(text);
      return Err(BadNameOffset);
    }
    FirstZero(text, n);
    var name := Utf8.Decode(text[..n]);
    if name.None? {
      return Err(NameNotUtf8);
    }
    return Ok(name.value);
  }

  /** The packed version of a version command. */
  method CommandVersion(payload: seq<Byte>, little: bool, kind: nat) returns (r: Result<nat, Fault>)
    requires kind == BUILD_VERSION || kind == VERSION_MIN
    ensures
      var c := ReadBody(kind, payload, little);
      if c.Err? then r == Err(c.error) else HasVersion(c.value) && r == Ok(c.value.packed)
  {
    if |payload| < (if kind == BUILD_VERSION then 16 else 8) {
      return Err(TruncatedVersion);
    }
    if kind == VERSION_MIN {
      return Ok(First(payload, little));
    }
    if First(payload, little) != MACOS {
      return Err(NotForMacOS);
    }
    return Ok(First(payload[4..], little));
  }

  lemma NamesStep(c: Command, cs: seq<Command>, found: Collected)
    ensures Finish(Ok([c] + cs), found) == Finish(Ok(cs), With(found, c))
  {
    assert ([c] + cs)[1..] == cs;
    assert found.dependencies + (NameIn(c, false) + Names(cs, false)) == With(found, c).dependencies + Names(cs, false);
    assert found.rpaths + (NameIn(c, true) + Names(cs, true)) == With(found, c).rpaths + Names(cs, true);
  }

  function Prepend(c: Command, tail: Result<seq<Command>, Fault>): Result<seq<Command>, Fault> {
    if tail.Err? then tail else Ok([c] + tail.value)
  }

  lemma FinishStep(c: Command, tail: Result<seq<Command>, Fault>, found: Collected)
    ensures Finish(Prepend(c, tail), found) == Finish(tail, With(found, c))
  {
    if tail.Ok? {
      NamesStep(c, tail.value, found);
    }
  }

  /** What the loop does with the area that is left, given how a command is read. */
  function Outlook(read: Reader<Command>, area: seq<Byte>, count: nat, found: Collected): Result<Audit, Fault>
    decreases count
  {
    if count == 0 then
      if area != [] || found.minimum.None? then Err(NoVersionOrBadCount)
      else Ok(Audit(found.dependencies, found.rpaths, found.minimum.value))
    else
      var c := read(area);
      if c.Err? then Err(c.error) else Outlook(read, c.value.1, count - 1, With(found, c.value.0))
  }

  function ReadAll(read: Reader<Command>, area: seq<Byte>, count: nat): Result<seq<Command>, Fault> {
    var r := ReadMany(read, count, area);
    if r.Err? then Err(r.error) else if r.value.1 != [] then Err(NoVersionOrBadCount) else Ok(r.value.0)
  }

  lemma ReadAllStep(read: Reader<Command>, area: seq<Byte>, count: nat, left: nat)
    requires count == left + 1
    ensures
      var c := read(area);
      ReadAll(read, area, count) == if c.Err? then Err(c.error) else Prepend(c.value.0, ReadAll(read, c.value.1, left))
  {
  }

  lemma OutlookAtEnd(read: Reader<Command>, area: seq<Byte>, found: Collected)
    ensures Outlook(read, area, 0, found) == Finish(ReadAll(read, area, 0), found)
  {
    assert found.dependencies + [] == found.dependencies && found.rpaths + [] == found.rpaths;
  }

  /** The loop comes to what reading all commands first and then collecting would come to. */
  lemma {:induction false} OutlookIsFinish(read: Reader<Command>, area: seq<Byte>, count: nat, found: Collected)
    ensures Outlook(read, area, count, found) == Finish(ReadAll(read, area, count), found)
    decreases count
  {
    if count == 0 {
      OutlookAtEnd(read, area, found);
    } else {
      var left, c := count - 1, read(area);
      ReadAllStep(read, area, count, left);
      if c.Ok? {
        OutlookIsFinish(read, c.value.1, left, With(found, c.value.0));
        FinishStep(c.value.0, ReadAll(read, c.value.1, left), found);
      }
    }
  }

  /** The loop will come to `outcome` from here. The quantifier keeps `Outlook` folded where only this is needed. */
  ghost predicate LeadsTo(read: Reader<Command>, area: seq<Byte>, count: nat, found: Collected, outcome: Result<Audit, Fault>) {
    forall rest :: rest == area ==> Outlook(read, rest, count, found) == outcome
  }

  lemma LoopOutcome(area: seq<Byte>, count: nat, little: bool, found: Collected)
    ensures LeadsTo(CommandReader(little), area, count, found, Finish(ReadCommands(area, count, little), found))
  {
    OutlookIsFinish(CommandReader(little), area, count, found);
  }

  /** What is left to do behind the next command. */
  lemma LeadsBehind(read: Reader<Command>, area: seq<Byte>, count: nat, left: nat, found: Collected, outcome: Result<Audit, Fault>)
    requires LeadsTo(read, area, count, found, outcome) && count == left + 1
    ensures
      var c := read(area);
      if c.Err? then outcome == Err(c.error) else LeadsTo(read, c.value.1, left, With(found, c.value.0), outcome)
  {
    assert Outlook(read, area, count, found) == outcome;
  }

  lemma LeadsToEnd(read: Reader<Command>, area: seq<Byte>, found: Collected, outcome: Result<Audit, Fault>)
    requires LeadsTo(read, area, 0, found, outcome)
    ensures outcome == if area != [] || found.minimum.None? then Err(NoVersionOrBadCount)
                       else Ok(Audit(found.dependencies, found.rpaths, found.minimum.value))
  {
    assert Outlook(read, area, 0, found) == outcome;
  }

  method LoadCommand(command: nat, payload: seq<Byte>, little: bool, before: Collected) returns (r: Result<Collected, Fault>)
    ensures
      var c := ReadBody(command, payload, little);
      r == if c.Err? then Err(c.error) else Ok(With(before, c.value))
  {
    var now := before;
    if command in NAMING {
      var name := LoaderName(payload, little, command);
      if name.Err? {
        return Err(name.error);
      }
      if command == RPATH {
        now := now.(rpaths := now.rpaths + [name.value]);
      } else {
        now := now.(dependencies := now.dependencies + [name.value]);
      }
    }
    if command == BUILD_VERSION || command == VERSION_MIN {
      var packed := CommandVersion(payload, little, command);
      if packed.Err? {
        return Err(packed.error);
      }
      now := now.(minimum := Some(Unpacked(packed.value)));
    }
    assert before.dependencies + [] == before.dependencies && before.rpaths + [] == before.rpaths;
    return Ok(now);
  }

  /** The next command's length and what is collected with it. */
  method LoadHead(area: seq<Byte>, ghost count: nat, little: bool, before: Collected, ghost outcome: Result<Audit, Fault>)
    returns (r: Result<(nat, Collected), Fault>)
    requires count > 0 && LeadsTo(CommandReader(little), area, count, before, outcome)
    ensures r.Err? ==> outcome == Err(r.error)
    ensures r.Ok? ==> r.value.0 <= |area| && LeadsTo(CommandReader(little), area[r.value.0..], count - 1, r.value.1, outcome)
  {
    LeadsBehind(CommandReader(little), area, count, count - 1, before, outcome);
    if |area| < 8 {
      return Err(TruncatedCommandHeader);
    }
    var command, length := First(area, little), First(area[4..], little);
    if length < 8 || length % 4 != 0 || length > |area| {
      return Err(BadCommandSize);
    }
    assert ReadFrame(area, little) == Ok((command, area[8..length], area[length..]));
    var loaded := LoadCommand(command, area[8..length], little, before);
    if loaded.Err? {
      return Err(loaded.error);
    }
    return Ok((length, loaded.value));
  }

  method LoadCommands(commands: seq<Byte>, count: nat, little: bool, ghost outcome: Result<Audit, Fault>) returns (r: Result<Audit, Fault>)
    requires LeadsTo(CommandReader(little), commands, count, NOTHING, outcome)
    ensures r == outcome
  {
    var cursor, found, i := 0, NOTHING, 0;
    var rest := commands;
    while i < count
      invariant 0 <= i <= count && cursor + |rest| == |commands|
      invariant LeadsTo(CommandReader(little), rest, count - i, found, outcome)
    {
      var loaded := LoadHead(rest, count - i, little, found, outcome);
      if loaded.Err? {
        return Err(loaded.error);
      }
      var length := loaded.value.0;
      cursor, rest, found, i := cursor + length, rest[length..], loaded.value.1, i + 1;
    }
    LeadsToEnd(CommandReader(little), rest, found, outcome);
    if cursor != |commands| || found.minimum.None? {
      return Err(NoVersionOrBadCount);
    }
    return Ok(Audit(found.dependencies, found.rpaths, found.minimum.value));
  }

  /** The image at the head of the stream, in a slice of this size. */
  method InspectImage(stream: seq<Byte>, sliceSize: nat) returns (r: Result<Audit, Fault>)
    ensures
      var i := ReadImage(stream, sliceSize);
      r == if i.Err? then Err(i.error) else Finish(Ok(i.value.commands), NOTHING)
  {
    var magic := Take(stream, 4);
    if magic != Magic(true) && magic != Magic(false) {
      return Err(NotMachO);
    }
    var little := magic == Magic(true);
    HeaderIsSevenWords();
    var rest := Take(Drop(stream, 4), 28);
    if |rest| != 28 {
      return Err(TruncatedHeader);
    }
    var v := Unpack(HEADER, rest, little);
    var cpu, count, commandBytes := v[0], v[3], v[4];
    if cpu != ARM64 || commandBytes > MAX_COMMAND_BYTES || 32 + commandBytes > sliceSize {
      return Err(BadHeader);
    }
    assert ReadHeader(Drop(stream, 4), sliceSize, little) == Ok(v);
    var commands := Take(Drop(stream, 32), commandBytes);
    if |commands| != commandBytes {
      return Err(TruncatedCommands);
    }
    LoopOutcome(commands, count, little, NOTHING);
    r := LoadCommands(commands, count, little, Finish(ReadCommands(commands, count, little), NOTHING));
  }

  method MachoArm64(file: seq<Byte>) returns (r: Result<Audit, Fault>)
    ensures r == Inspect(file)
  {
    var magic := Take(file, 4);
    var offset, sliceSize := 0, |file|;
    if FatForm(magic).Some? {
      var (little, wide) := FatForm(magic).value;
      var slice := FindSlice(Drop(file, 4), little, wide, |file|);
      if slice.Err? {
        return Err(slice.error);
      }
      offset, sliceSize := slice.value.offset, slice.value.size;
    }
    r := InspectImage(Drop(file, offset), sliceSize);
  }
}
