/**
 * Video packets: from length-prefixed NAL units, and configuration records of ISO/IEC 14496-15, to the Annex B byte
 * stream.
 */
module PacketConverter {
  import opened Results

  newtype byte = x: int | 0 <= x < 256

  type Nal = seq<byte>

  datatype Codec = H264 | H265

  const START_CODE: seq<byte> := [0, 0, 0, 1]

  /** The smallest unit with a header and a payload. */
  function MinimumSize(codec: Codec): nat {
    if codec.H264? then 2 else 3
  }

  // ----- NAL headers

  /** False for a unit a decoder would have to skip, an error for one that cannot be a unit at all. */
  function ValidNalHeader(codec: Codec, nal: Nal): Result<bool> {
    if |nal| < MinimumSize(codec) then Err(InvalidArgument)
    else if nal[0] >= 0x80 then Ok(false)
    else if codec.H264? then
      if nal[0] % 32 == 0 || nal[0] % 32 >= 24 then Err(InvalidArgument) else Ok(true)
    else Ok(nal[1] % 8 != 0)
  }

  predicate HeaderValid(codec: Codec, nal: Nal) {
    ValidNalHeader(codec, nal) == Ok(true)
  }

  /**
   * The fields of an H.264 header, section 7.3.1 of its standard: a forbidden bit, two reference bits, five of type.
   */
  lemma AvcHeaderFields(forbidden: nat, reference: nat, kind: nat, payload: seq<byte>)
    requires forbidden < 2 && reference < 4 && kind < 32
    ensures var nal := [(forbidden * 128 + reference * 32 + kind) as byte] + payload;
            && (HeaderValid(H264, nal) <==> payload != [] && forbidden == 0 && 1 <= kind <= 23)
            && (ValidNalHeader(H264, nal).Err? <==> payload == [] || (forbidden == 0 && !(1 <= kind <= 23)))
  {
    var header := (forbidden * 128 + reference * 32 + kind) as byte;
    assert (header % 32) as nat == kind;
    assert ([header] + payload)[0] == header;
  }

  /** The two bytes of an H.265 header: a forbidden bit, six of type, six of layer, three of temporal layer plus one. */
  lemma HevcHeaderFields(forbidden: nat, kind: nat, layer: nat, temporal: nat, payload: seq<byte>)
    requires forbidden < 2 && kind < 64 && layer < 64 && temporal < 8
    ensures var (first, second) := (forbidden * 128 + kind * 2 + layer / 32, layer % 32 * 8 + temporal);
            var nal := [first as byte, second as byte] + payload;
            && (HeaderValid(H265, nal) <==> payload != [] && forbidden == 0 && temporal != 0)
            && (ValidNalHeader(H265, nal).Err? <==> payload == [])
  {
    var (first, second) := (forbidden * 128 + kind * 2 + layer / 32, layer % 32 * 8 + temporal);
    assert second % 8 == temporal;
    assert ([first as byte, second as byte] + payload)[0] == first as byte;
    assert ([first as byte, second as byte] + payload)[1] == second as byte;
  }

  // ----- big-endian lengths

  function Number(bytes: seq<byte>): nat {
    if bytes == [] then 0 else 256 * Number(bytes[..|bytes| - 1]) + bytes[|bytes| - 1] as int
  }

  function Encode(n: nat, width: nat): seq<byte> {
    if width == 0 then [] else Encode(n / 256, width - 1) + [(n % 256) as byte]
  }

  function Power(width: nat): nat {
    if width == 0 then 1 else 256 * Power(width - 1)
  }

  lemma {:induction false} NumberOfEncode(n: nat, width: nat)
    requires n < Power(width)
    ensures |Encode(n, width)| == width && Number(Encode(n, width)) == n
  {
    if width > 0 {
      NumberOfEncode(n / 256, width - 1);
      var e := Encode(n, width);
      assert e[..|e| - 1] == Encode(n / 256, width - 1);
    }
  }

  lemma {:induction false} EncodeOfNumber(bytes: seq<byte>)
    ensures Number(bytes) < Power(|bytes|) && Encode(Number(bytes), |bytes|) == bytes
  {
    if bytes != [] {
      EncodeOfNumber(bytes[..|bytes| - 1]);
      assert bytes == bytes[..|bytes| - 1] + [bytes[|bytes| - 1]];
    }
  }

  // ----- length-prefixed units

  /** The unit at the front, and what is left behind it. */
  function Take(codec: Codec, data: seq<byte>, width: nat, validate: bool): (r: Option<(Nal, seq<byte>)>)
    ensures r.Some? ==> |r.value.1| < |data|
  {
    if width > |data| then None
    else
      var length := Number(data[..width]);
      if length < MinimumSize(codec) || length > |data| - width then None
      else
        var nal := data[width..][..length];
        if validate && !HeaderValid(codec, nal) then None else Some((nal, data[width..][length..]))
  }

  /** The whole buffer as units, if it is nothing but units. */
  function Split(codec: Codec, data: seq<byte>, width: nat): Option<seq<Nal>>
    decreases |data|
  {
    if data == [] then Some([])
    else
      match Take(codec, data, width, false)
      case None => None
      case Some((nal, rest)) =>
        match Split(codec, rest, width)
        case None => None
        case Some(nals) => Some([nal] + nals)
  }

  /** A given number of header-valid units with two-byte lengths, as configuration records hold them. */
  function TakeMany(codec: Codec, data: seq<byte>, count: nat): Option<(seq<Nal>, seq<byte>)> {
    if count == 0 then Some(([], data))
    else
      match TakeMany(codec, data, count - 1)
      case None => None
      case Some((nals, rest)) =>
        match Take(codec, rest, 2, true)
        case None => None
        case Some((nal, left)) => Some((nals + [nal], left))
  }

  function Unit(nal: Nal, width: nat): seq<byte> {
    Encode(|nal|, width) + nal
  }

  function Prefixed(nals: seq<Nal>, width: nat): seq<byte> {
    if nals == [] then [] else Unit(nals[0], width) + Prefixed(nals[1..], width)
  }

  function AnnexB(nals: seq<Nal>): seq<byte> {
    if nals == [] then [] else AnnexB(nals[..|nals| - 1]) + START_CODE + nals[|nals| - 1]
  }

  lemma AnnexBSnoc(nals: seq<Nal>, nal: Nal)
    ensures AnnexB(nals + [nal]) == AnnexB(nals) + START_CODE + nal
  {
    assert (nals + [nal])[..|nals|] == nals;
  }

  ghost predicate Legal(codec: Codec, nals: seq<Nal>, width: nat) {
    forall i :: 0 <= i < |nals| ==> MinimumSize(codec) <= |nals[i]| < Power(width)
  }

  lemma TakeUnit(codec: Codec, nal: Nal, width: nat, validate: bool, rest: seq<byte>)
    requires MinimumSize(codec) <= |nal| < Power(width) && (validate ==> HeaderValid(codec, nal))
    ensures Take(codec, Unit(nal, width) + rest, width, validate) == Some((nal, rest))
  {
    NumberOfEncode(|nal|, width);
    var data := Unit(nal, width) + rest;
    assert data[..width] == Encode(|nal|, width);
    assert data[width..] == nal + rest;
  }

  lemma UnitTaken(codec: Codec, data: seq<byte>, width: nat, validate: bool)
    requires Take(codec, data, width, validate).Some?
    ensures var (nal, rest) := Take(codec, data, width, validate).value;
            && data == Unit(nal, width) + rest
            && MinimumSize(codec) <= |nal| < Power(width) && (validate ==> HeaderValid(codec, nal))
  {
    var (nal, rest) := Take(codec, data, width, validate).value;
    EncodeOfNumber(data[..width]);
    assert data == data[..width] + data[width..];
    assert data[width..] == nal + rest;
  }

  /** Every list of units of legal size survives prefixing and splitting. */
  lemma {:induction false} SplitOfPrefixed(codec: Codec, nals: seq<Nal>, width: nat)
    requires Legal(codec, nals, width)
    ensures Split(codec, Prefixed(nals, width), width) == Some(nals)
    decreases nals
  {
    if nals != [] {
      TakeUnit(codec, nals[0], width, false, Prefixed(nals[1..], width));
      SplitOfPrefixed(codec, nals[1..], width);
      assert nals == [nals[0]] + nals[1..];
    }
  }

  /** A buffer splits only if it is the prefixed form of what it splits into. */
  lemma {:induction false} PrefixedOfSplit(codec: Codec, data: seq<byte>, width: nat)
    requires Split(codec, data, width).Some?
    ensures Legal(codec, Split(codec, data, width).value, width)
    ensures Prefixed(Split(codec, data, width).value, width) == data
    decreases |data|
  {
    if data != [] {
      var (nal, rest) := Take(codec, data, width, false).value;
      UnitTaken(codec, data, width, false);
      PrefixedOfSplit(codec, rest, width);
      var nals := Split(codec, rest, width).value;
      assert ([nal] + nals)[1..] == nals;
    }
  }

  // ----- the loops

  method ReadLength(data: seq<byte>, offset: nat, width: nat) returns (r: Result<nat>)
    requires offset <= |data|
    ensures r == if width > |data| - offset then Err(InvalidArgument) else Ok(Number(data[offset..][..width]))
  {
    if width > |data| - offset {
      return Err(InvalidArgument);
    }
    var length: nat := 0;
    for index := 0 to width
      invariant length == Number(data[offset..][..index])
    {
      assert data[offset..][..index + 1][..index] == data[offset..][..index];
      length := 256 * length + data[offset + index] as int;
    }
    return Ok(length);
  }

  /** Whether the whole buffer is made of length-prefixed units. */
  method LengthPrefixed(codec: Codec, data: seq<byte>, width: nat) returns (r: bool)
    ensures r <==> width != 0 && Split(codec, data, width).Some?
  {
    if width == 0 {
      return false;
    }
    var offset := 0;
    while offset < |data|
      invariant offset <= |data|
      invariant Split(codec, data, width).Some? <==> Split(codec, data[offset..], width).Some?
    {
      var rest := data[offset..];
      var read := ReadLength(data, offset, width);
      if read.Err? {
        return false;
      }
      offset := offset + width;
      if read.value < MinimumSize(codec) || read.value > |data| - offset {
        return false;
      }
      offset := offset + read.value;
      assert rest[width..][read.value..] == data[offset..];
    }
    return true;
  }

  /** Reads one unit and appends it in Annex B form; returns the output and the new offset. */
  method AppendNal(output: seq<byte>, codec: Codec, data: seq<byte>, offset: nat, width: nat, validate: bool)
    returns (r: Result<(seq<byte>, nat)>)
    requires offset <= |data|
    ensures var taken := Take(codec, data[offset..], width, validate);
            if taken.None? then r == Err(InvalidArgument)
            else
              && r.Ok? && r.value.0 == output + START_CODE + taken.value.0
              && offset < r.value.1 <= |data| && data[r.value.1..] == taken.value.1
  {
    var read := ReadLength(data, offset, width);
    var length :- read;
    var start := offset + width;
    if length < MinimumSize(codec) || length > |data| - start {
      return Err(InvalidArgument);
    }
    var nal := data[start..start + length];
    assert nal == data[offset..][width..][..length];
    if validate && !HeaderValid(codec, nal) {
      return Err(InvalidArgument);
    }
    assert data[start + length..] == data[offset..][width..][length..];
    return Ok((output + START_CODE + nal, start + length));
  }

  lemma NothingInAnnexB()
    ensures AnnexB([]) == []
  {
  }

  lemma SplitFront(codec: Codec, data: seq<byte>, width: nat)
    ensures data == [] ==> Split(codec, data, width) == Some([])
    ensures data != [] ==>
      var front := Take(codec, data, width, false);
      if front.None? then Split(codec, data, width).None?
      else
        var rest := Split(codec, front.value.1, width);
        Split(codec, data, width) == if rest.None? then None else Some([front.value.0] + rest.value)
  {
  }

  /** Rewrites a length-prefixed packet. */
  method Rewrite(codec: Codec, data: seq<byte>, width: nat) returns (r: Result<seq<byte>>)
    ensures match Split(codec, data, width)
            case None => r == Err(InvalidArgument)
            case Some(nals) => r == Ok(AnnexB(nals))
  {
    hide Take, HeaderValid, AnnexB, Split;
    var output: seq<byte>, offset := [], 0;
    ghost var done: seq<Nal> := [];
    assert AnnexB([]) == [] by {
      NothingInAnnexB();
    }
    ghost var all := Split(codec, data, width);
    assert data[0..] == data && (all.Some? ==> done + all.value == all.value);
    while offset < |data|
      invariant offset <= |data| && output == AnnexB(done)
      invariant Split(codec, data, width) ==
                match Split(codec, data[offset..], width) case None => None case Some(rest) => Some(done + rest)
    {
      var rest := data[offset..];
      SplitFront(codec, rest, width);
      var appended := AppendNal(output, codec, data, offset, width, false);
      var next :- appended;
      ghost var nal := Take(codec, rest, width, false).value.0;
      ghost var left := Split(codec, data[next.1..], width);
      assert left.Some? ==> done + ([nal] + left.value) == (done + [nal]) + left.value;
      AnnexBSnoc(done, nal);
      done := done + [nal];
      output, offset := next.0, next.1;
    }
    assert data[offset..] == [] && done + [] == done;
    SplitFront(codec, [], width);
    return Ok(output);
  }

  /**
   * Exactly the buffers that are recognised are rewritten completely, and they are exactly the prefixed forms of legal
   * units.
   */
  lemma RecognisedIffRewritable(codec: Codec, data: seq<byte>, width: nat)
    ensures Split(codec, data, width).Some? <==>
      exists nals :: Legal(codec, nals, width) && data == Prefixed(nals, width)
  {
    if Split(codec, data, width).Some? {
      PrefixedOfSplit(codec, data, width);
    }
    if nals :| Legal(codec, nals, width) && data == Prefixed(nals, width) {
      SplitOfPrefixed(codec, nals, width);
    }
  }

  /** A packet that already begins with a four-byte start code is never mistaken for a length-prefixed one. */
  lemma AnnexBIsNotPrefixed(codec: Codec, payload: seq<byte>, width: nat)
    requires 1 <= width <= 4
    ensures Split(codec, START_CODE + payload, width).None?
  {
    var data := START_CODE + payload;
    var head := data[..width];
    assert head == START_CODE[..width];
    SmallNumbers(width);
  }

  lemma SmallNumbers(width: nat)
    requires 1 <= width <= 4
    ensures Number(START_CODE[..width]) <= 1
  {
    assert START_CODE[..1] == [0] && START_CODE[..2] == [0, 0] && START_CODE[..3] == [0, 0, 0] &&
      START_CODE[..4] == [0, 0, 0, 1];
    assert Number([0]) == 0 by { assert [0 as byte][..0] == []; }
    assert Number([0, 0]) == 0 by { assert [0 as byte, 0][..1] == [0]; }
    assert Number([0, 0, 0]) == 0 by { assert [0 as byte, 0, 0][..2] == [0, 0]; }
    assert Number([0, 0, 0, 1]) == 1 by { assert [0 as byte, 0, 0, 1][..3] == [0, 0, 0]; }
  }

  const SHORT_START_CODE: seq<byte> := [0, 0, 1]

  /**
   * A packet that begins with a three-byte start code is safe with length sizes up to three. With four the code and the
   * byte behind it read as a length of 256 and more, and the packet is taken for a length-prefixed one exactly when
   * that length and what follows it happen to fit.
   */
  lemma ShortStartCodeIsSafeIff(codec: Codec, payload: seq<byte>, width: nat)
    requires 1 <= width <= 4
    ensures width <= 3 ==> Split(codec, SHORT_START_CODE + payload, width).None?
    ensures width == 4 ==>
      (Split(codec, SHORT_START_CODE + payload, width).Some? <==>
        && payload != [] && 256 + payload[0] as int <= |payload| - 1
        && Split(codec, payload[1..][256 + payload[0] as int..], width).Some?)
  {
    hide HeaderValid, Number;
    var data := SHORT_START_CODE + payload;
    ShortCodeNumbers(width);
    if width <= 3 {
      assert data[..width] == SHORT_START_CODE[..width];
    } else if payload != [] {
      assert data[..4] == [0, 0, 1, payload[0]] && data[4..] == payload[1..];
      ShortCodeLength(payload[0]);
      SplitFront(codec, data, 4);
    }
  }

  lemma ShortCodeNumbers(width: nat)
    requires 1 <= width <= 4
    ensures width <= 3 ==> Number(SHORT_START_CODE[..width]) <= 1
  {
    assert SHORT_START_CODE[..1] == [0] && SHORT_START_CODE[..2] == [0, 0] && SHORT_START_CODE[..3] == [0, 0, 1];
    assert Number([0]) == 0 by { assert [0 as byte][..0] == []; }
    assert Number([0, 0]) == 0 by { assert [0 as byte, 0][..1] == [0]; }
    assert Number([0, 0, 1]) == 1 by { assert [0 as byte, 0, 1][..2] == [0, 0]; }
  }

  lemma ShortCodeLength(x: byte)
    ensures Number([0, 0, 1, x]) == 256 + x as int
  {
    assert [0, 0, 1, x][..3] == [0, 0, 1];
    assert [0 as byte, 0, 1][..3] == SHORT_START_CODE[..3];
    assert Number([0]) == 0 by { assert [0 as byte][..0] == []; }
    assert Number([0, 0]) == 0 by { assert [0 as byte, 0][..1] == [0]; }
    assert Number([0, 0, 1]) == 1 by { assert [0 as byte, 0, 1][..2] == [0, 0]; }
  }

  /**
   * Such packets exist, for every header byte: a unit of just the right size behind a three-byte start code loses that
   * header, and comes out as another unit.
   */
  lemma ShortStartCodeCanBeMistaken(codec: Codec, unit: Nal)
    requires unit != [] && |unit| == 257 + unit[0] as int
    ensures Split(codec, SHORT_START_CODE + unit, 4) == Some([unit[1..]])
  {
    var data := SHORT_START_CODE + unit;
    var length := 256 + unit[0] as int;
    assert data[..4] == [0, 0, 1, unit[0]] && data[4..] == unit[1..];
    ShortCodeLength(unit[0]);
    assert unit[1..][..length] == unit[1..] && unit[1..][length..] == [];
    assert Take(codec, data, 4, false) == Some((unit[1..], []));
    SplitFront(codec, data, 4);
    SplitFront(codec, [], 4);
    assert [unit[1..]] + [] == [unit[1..]];
  }

  /** What rewriting produces is not rewritten again. */
  lemma RewritingIsStable(codec: Codec, nals: seq<Nal>, width: nat)
    requires 1 <= width <= 4 && nals != []
    ensures Split(codec, AnnexB(nals), width).None?
  {
    AnnexBStarts(nals);
    AnnexBIsNotPrefixed(codec, AnnexB(nals)[4..], width);
  }

  lemma {:induction false} AnnexBStarts(nals: seq<Nal>)
    requires nals != []
    ensures |AnnexB(nals)| >= 4 && AnnexB(nals) == START_CODE + AnnexB(nals)[4..]
  {
    if |nals| > 1 {
      AnnexBStarts(nals[..|nals| - 1]);
    }
  }

  // ----- the conversion of one video packet

  /** `startCode` is whether the packet begins with a start code, `width` the length size of its stream or zero. */
  method ConvertVideo(codec: Codec, data: seq<byte>, width: nat, startCode: bool) returns (r: Result<seq<byte>>)
    ensures r == match Split(codec, data, width)
                 case Some(nals) => if width != 0 then Ok(AnnexB(nals)) else if startCode then Ok(data)
                   else Err(InvalidArgument)
                 case None => if startCode then Ok(data) else Err(InvalidArgument)
  {
    var prefixed := LengthPrefixed(codec, data, width);
    if prefixed || !startCode {
      if width == 0 {
        return Err(InvalidArgument);
      }
      r := Rewrite(codec, data, width);
      return;
    }
    return Ok(data);
  }

  // ----- configuration records

  /** An hvcC array: its type byte and its units. */
  datatype NalArray = NalArray(kind: byte, nals: seq<Nal>)

  function TakeArrays(data: seq<byte>, count: nat): Option<(seq<Nal>, seq<byte>)> {
    if count == 0 then Some(([], data))
    else
      match TakeArrays(data, count - 1)
      case None => None
      case Some((nals, rest)) =>
        if |rest| < 3 then None
        else
          match TakeMany(H265, rest[3..], Number(rest[1..3]))
          case None => None
          case Some((more, left)) => Some((nals + more, left))
  }

  function AvcRecord(data: seq<byte>): Option<(seq<Nal>, nat)> {
    if |data| < 7 || data[0] != 1 then None
    else
      match TakeMany(H264, data[6..], (data[5] % 32) as nat)
      case None => None
      case Some((sps, rest)) =>
        if rest == [] then None
        else
          match TakeMany(H264, rest[1..], rest[0] as nat)
          case None => None
          // Anything behind the picture parameter sets is ignored.
          case Some((pps, _)) => Some((sps + pps, (data[4] % 4) as nat + 1))
  }

  function HevcRecord(data: seq<byte>): Option<(seq<Nal>, nat)> {
    if |data| < 23 || data[0] != 1 then None
    else
      match TakeArrays(data[23..], data[22] as nat)
      case None => None
      case Some((nals, rest)) => if rest == [] then Some((nals, (data[21] % 4) as nat + 1)) else None
  }

  function Record(codec: Codec, data: seq<byte>): Option<(seq<Nal>, nat)> {
    if codec.H264? then AvcRecord(data) else HevcRecord(data)
  }

  /** Appends `count` units with two-byte lengths. */
  method AppendMany(output: seq<byte>, codec: Codec, data: seq<byte>, offset: nat, count: nat, ghost before: seq<Nal>)
    returns (r: Result<(seq<byte>, nat)>)
    requires offset <= |data| && output == AnnexB(before)
    ensures var taken := TakeMany(codec, data[offset..], count);
            if taken.None? then r == Err(InvalidArgument)
            else
              && r.Ok? && r.value.0 == AnnexB(before + taken.value.0)
              && offset <= r.value.1 <= |data| && data[r.value.1..] == taken.value.1
  {
    hide Take, HeaderValid, AnnexB;
    var out, at := output, offset;
    ghost var nals: seq<Nal> := [];
    assert before + [] == before;
    for index := 0 to count
      invariant offset <= at <= |data| && out == AnnexB(before + nals)
      invariant TakeMany(codec, data[offset..], index) == Some((nals, data[at..]))
    {
      var appended := AppendNal(out, codec, data, at, 2, true);
      if appended.Err? {
        MissingUnit(codec, data[offset..], index, count);
        return Err(InvalidArgument);
      }
      ghost var nal := Take(codec, data[at..], 2, true).value.0;
      AnnexBSnoc(before + nals, nal);
      assert before + nals + [nal] == before + (nals + [nal]);
      nals := nals + [nal];
      out, at := appended.value.0, appended.value.1;
    }
    return Ok((out, at));
  }

  lemma {:induction false} MissingUnit(codec: Codec, data: seq<byte>, index: nat, count: nat)
    requires index < count && TakeMany(codec, data, index + 1).None?
    ensures TakeMany(codec, data, count).None?
  {
    if index + 1 < count {
      MissingUnit(codec, data, index, count - 1);
    }
  }

  lemma {:induction false} MissingArray(data: seq<byte>, index: nat, count: nat)
    requires index < count && TakeArrays(data, index + 1).None?
    ensures TakeArrays(data, count).None?
  {
    if index + 1 < count {
      MissingArray(data, index, count - 1);
    }
  }

  /** The parameter sets of a record in Annex B form, and the length size of its stream. */
  method Configuration(codec: Codec, data: seq<byte>) returns (r: Result<(seq<byte>, nat)>)
    ensures r == if Record(codec, data).None? then Err(InvalidArgument)
      else Ok((AnnexB(Record(codec, data).value.0), Record(codec, data).value.1))
  {
    if codec.H264? {
      r := AvcConfiguration(data);
    } else {
      r := HevcConfiguration(data);
    }
  }

  method AvcConfiguration(data: seq<byte>) returns (r: Result<(seq<byte>, nat)>)
    ensures r == if AvcRecord(data).None? then Err(InvalidArgument)
      else Ok((AnnexB(AvcRecord(data).value.0), AvcRecord(data).value.1))
  {
    hide TakeMany, AnnexB;
    if |data| < 7 || data[0] != 1 {
      return Err(InvalidArgument);
    }
    NothingInAnnexB();
    var width := (data[4] % 4) as nat + 1;
    var sets := AppendMany([], H264, data, 6, (data[5] % 32) as nat, []);
    var sps :- sets;
    var offset := sps.1;
    if offset == |data| {
      return Err(InvalidArgument);
    }
    ghost var nals := TakeMany(H264, data[6..], (data[5] % 32) as nat).value.0;
    assert [] + nals == nals;
    assert data[offset..][1..] == data[offset + 1..];
    var more := AppendMany(sps.0, H264, data, offset + 1, data[offset] as nat, nals);
    var all :- more;
    return Ok((all.0, width));
  }

  method HevcConfiguration(data: seq<byte>) returns (r: Result<(seq<byte>, nat)>)
    ensures r == if HevcRecord(data).None? then Err(InvalidArgument)
      else Ok((AnnexB(HevcRecord(data).value.0), HevcRecord(data).value.1))
  {
    hide TakeMany, AnnexB, Number;
    if |data| < 23 || data[0] != 1 {
      return Err(InvalidArgument);
    }
    NothingInAnnexB();
    var width := (data[21] % 4) as nat + 1;
    var output: seq<byte>, offset: nat := [], 23;
    ghost var nals: seq<Nal> := [];
    for k := 0 to data[22] as nat
      invariant 23 <= offset <= |data| && output == AnnexB(nals)
      invariant TakeArrays(data[23..], k) == Some((nals, data[offset..]))
    {
      ghost var rest := data[offset..];
      if offset == |data| {
        MissingArray(data[23..], k, data[22] as nat);
        return Err(InvalidArgument);
      }
      offset := offset + 1;
      var read := ReadLength(data, offset, 2);
      if read.Err? {
        MissingArray(data[23..], k, data[22] as nat);
        return Err(InvalidArgument);
      }
      assert data[offset..][..2] == rest[1..3];
      offset := offset + 2;
      assert data[offset..] == rest[3..];
      var sets := AppendMany(output, H265, data, offset, read.value, nals);
      if sets.Err? {
        MissingArray(data[23..], k, data[22] as nat);
        return Err(InvalidArgument);
      }
      nals := nals + TakeMany(H265, rest[3..], read.value).value.0;
      output, offset := sets.value.0, sets.value.1;
    }
    if offset != |data| {
      return Err(InvalidArgument);
    }
    return Ok((output, width));
  }

  // ----- serializers

  /** Units with two-byte lengths, in order. */
  function Sets(nals: seq<Nal>): seq<byte> {
    if nals == [] then [] else Sets(nals[..|nals| - 1]) + Unit(nals[|nals| - 1], 2)
  }

  function Arrays(arrays: seq<NalArray>): seq<byte> {
    if arrays == [] then []
    else
      Arrays(arrays[..|arrays| - 1]) + ArrayOf(arrays[|arrays| - 1])
  }

  function ArrayOf(a: NalArray): seq<byte> {
    [a.kind] + Encode(|a.nals|, 2) + Sets(a.nals)
  }

  function NalsOf(arrays: seq<NalArray>): seq<Nal> {
    if arrays == [] then [] else NalsOf(arrays[..|arrays| - 1]) + arrays[|arrays| - 1].nals
  }

  ghost predicate Storable(codec: Codec, nals: seq<Nal>) {
    forall i :: 0 <= i < |nals| ==> |nals[i]| < 65536 && HeaderValid(codec, nals[i])
  }

  lemma TwoBytes()
    ensures Power(2) == 65536
  {
    assert Power(1) == 256;
  }

  lemma ValidIsLongEnough(codec: Codec, nal: Nal)
    requires HeaderValid(codec, nal)
    ensures |nal| >= MinimumSize(codec)
  {
  }

  lemma {:induction false} TakeManyOfSets(codec: Codec, nals: seq<Nal>, rest: seq<byte>)
    requires Storable(codec, nals)
    ensures TakeMany(codec, Sets(nals) + rest, |nals|) == Some((nals, rest))
  {
    hide Take, Unit, HeaderValid, Power;
    if nals == [] {
      assert Sets(nals) + rest == rest;
    } else {
      var init, last := nals[..|nals| - 1], nals[|nals| - 1];
      assert Sets(nals) + rest == Sets(init) + (Unit(last, 2) + rest);
      TakeManyOfSets(codec, init, Unit(last, 2) + rest);
      TwoBytes();
      ValidIsLongEnough(codec, last);
      TakeUnit(codec, last, 2, true, rest);
      assert nals == init + [last];
    }
  }

  lemma {:induction false} TakeArraysOfArrays(arrays: seq<NalArray>, rest: seq<byte>)
    requires forall i :: 0 <= i < |arrays| ==> |arrays[i].nals| < 65536 && Storable(H265, arrays[i].nals)
    ensures TakeArrays(Arrays(arrays) + rest, |arrays|) == Some((NalsOf(arrays), rest))
  {
    hide TakeMany, Encode, Number, Sets, Storable, Power;
    if arrays == [] {
      assert Arrays(arrays) + rest == rest;
    } else {
      var init, last := arrays[..|arrays| - 1], arrays[|arrays| - 1];
      var tail := ArrayOf(last) + rest;
      assert Arrays(arrays) + rest == Arrays(init) + tail;
      TakeArraysOfArrays(init, tail);
      TwoBytes();
      NumberOfEncode(|last.nals|, 2);
      ArraySlices(last, rest);
      TakeManyOfSets(H265, last.nals, rest);
    }
  }

  lemma ArraySlices(a: NalArray, rest: seq<byte>)
    requires |Encode(|a.nals|, 2)| == 2
    ensures var tail := ArrayOf(a) + rest;
            |tail| >= 3 && tail[1..3] == Encode(|a.nals|, 2) && tail[3..] == Sets(a.nals) + rest
  {
    hide Encode, Sets;
  }

  /**
   * AVCDecoderConfigurationRecord, section 5.3.3.1 of ISO/IEC 14496-15; `tail` is whatever follows the picture
   * parameter sets.
   */
  function AvcC(profile: byte, compatibility: byte, level: byte, reserved4: byte, reserved5: byte,
                sps: seq<Nal>, pps: seq<Nal>, tail: seq<byte>): seq<byte>
    requires |pps| < 256
  {
    [1, profile, compatibility, level, reserved4, reserved5] + Sets(sps) + [|pps| as byte] + Sets(pps) + tail
  }

  /** Reading back a written avcC gives its parameter sets and its length size. */
  lemma AvcRoundTrip(profile: byte, compatibility: byte, level: byte, b4: byte, b5: byte,
                     sps: seq<Nal>, pps: seq<Nal>, tail: seq<byte>)
    requires |pps| < 256 && |sps| == (b5 % 32) as nat
    requires Storable(H264, sps) && Storable(H264, pps)
    ensures AvcRecord(AvcC(profile, compatibility, level, b4, b5, sps, pps, tail)) ==
      Some((sps + pps, (b4 % 4) as nat + 1))
  {
    hide TakeMany, Sets, Storable;
    var rest := [|pps| as byte] + Sets(pps) + tail;
    var header := [1, profile, compatibility, level, b4, b5];
    var data := AvcC(profile, compatibility, level, b4, b5, sps, pps, tail);
    assert data == header + (Sets(sps) + rest);
    Behind(header, Sets(sps) + rest);
    TakeManyOfSets(H264, sps, rest);
    assert rest[1..] == Sets(pps) + tail;
    TakeManyOfSets(H264, pps, tail);
  }

  lemma Behind(header: seq<byte>, body: seq<byte>)
    ensures (header + body)[|header|..] == body
    ensures forall i :: 0 <= i < |header| ==> (header + body)[i] == header[i]
  {
  }

  /** HEVCDecoderConfigurationRecord, section 8.3.3.1 of ISO/IEC 14496-15, behind its 21 header bytes. */
  function HvcC(header: seq<byte>, b21: byte, arrays: seq<NalArray>): seq<byte>
    requires |header| == 21 && |arrays| < 256
  {
    header + [b21, |arrays| as byte] + Arrays(arrays)
  }

  /** Reading back a written hvcC gives the units of its arrays in order; one byte more and it is rejected. */
  lemma HevcRoundTrip(header: seq<byte>, b21: byte, arrays: seq<NalArray>, extra: seq<byte>)
    requires |header| == 21 && header[0] == 1 && |arrays| < 256
    requires forall i :: 0 <= i < |arrays| ==> |arrays[i].nals| < 65536 && Storable(H265, arrays[i].nals)
    ensures HevcRecord(HvcC(header, b21, arrays) + extra)
         == if extra == [] then Some((NalsOf(arrays), (b21 % 4) as nat + 1)) else None
  {
    hide TakeArrays, Arrays, Storable;
    var data := HvcC(header, b21, arrays) + extra;
    assert data[23..] == Arrays(arrays) + extra;
    TakeArraysOfArrays(arrays, extra);
  }
}
