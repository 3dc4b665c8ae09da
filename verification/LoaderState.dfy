/** UpgradeableLoaderState and its serialised form at the head of an account's data. */
module LoaderState {
  import opened Bytes

  datatype LoaderState =
    | Uninitialized
    | Buffer(authority: Option<Key>)
    | Program(programdata: Key)
    | ProgramData(slot: u64, upgradeAuthority: Option<Key>)

  const UNINITIALIZED_SIZE: nat := 4
  const BUFFER_OFFSET: nat := 37
  const PROGRAM_SIZE: nat := 36
  const PROGRAMDATA_OFFSET: nat := 45

  function EncodeOption(o: Option<Key>): seq<u8> {
    match o
    case None => [0]
    case Some(k) => [1] + ToLE(k, 32)
  }

  function DecodeOption(b: seq<u8>): Option<Option<Key>> {
    if |b| < 1 then None
    else if b[0] == 0 then Some(None)
    else if b[0] == 1 && 33 <= |b| then Some(Some(KeyOf(b[1..33])))
    else None
  }

  /** The variant's index in the enum, serialised as four bytes. */
  function Tag(st: LoaderState): (t: nat)
    ensures t < 4
  {
    match st
    case Uninitialized => 0
    case Buffer(_) => 1
    case Program(_) => 2
    case ProgramData(_, _) => 3
  }

  function Fields(st: LoaderState): (b: seq<u8>)
    ensures |b| <= 41
  {
    match st
    case Uninitialized => []
    case Buffer(a) => EncodeOption(a)
    case Program(p) => ToLE(p, 32)
    case ProgramData(s, a) => ToLE(s, 8) + EncodeOption(a)
  }

  function Encode(st: LoaderState): (b: seq<u8>)
    ensures 4 <= |b| <= PROGRAMDATA_OFFSET
  {
    ToLE(Tag(st), 4) + Fields(st)
  }

  /** What `state()` reads: the variant tag, then the variant's fields; later bytes are ignored. */
  function Decode(d: seq<u8>): Option<LoaderState> {
    if |d| < 4 then None else DecodeTagged(FromLE(d[..4]), d[4..])
  }

  function DecodeTagged(tag: nat, rest: seq<u8>): Option<LoaderState> {
    if tag == 0 then Some(Uninitialized)
    else if tag == 1 then
      match DecodeOption(rest) {
        case None => None
        case Some(a) => Some(Buffer(a))
      }
    else if tag == 2 then
      if |rest| < 32 then None else Some(Program(KeyOf(rest[..32])))
    else if tag == 3 then
      if |rest| < 8 then None else
      match DecodeOption(rest[8..]) {
        case None => None
        case Some(a) => Some(ProgramData(WordOf(rest[..8]), a))
      }
    else None
  }

  lemma OptionRoundTrip(o: Option<Key>, rest: seq<u8>)
    ensures DecodeOption(EncodeOption(o) + rest) == Some(o)
  {
    if o.Some? {
      var b := EncodeOption(o) + rest;
      assert b[1..33] == ToLE(o.value, 32);
      KeyRoundTrip(o.value);
    }
  }

  lemma TagRoundTrip(tag: nat, rest: seq<u8>)
    requires tag < 4
    ensures Decode(ToLE(tag, 4) + rest) == DecodeTagged(tag, rest)
  {
    var d := ToLE(tag, 4) + rest;
    assert d[..4] == ToLE(tag, 4) && d[4..] == rest;
    WordSizes();
    FromToLE(tag, 4);
  }

  lemma ProgramDataRoundTrip(s: u64, a: Option<Key>, rest: seq<u8>)
    ensures DecodeTagged(3, ToLE(s, 8) + (EncodeOption(a) + rest)) == Some(ProgramData(s, a))
  {
    Cut(ToLE(s, 8), EncodeOption(a) + rest);
    WordRoundTrip(s);
    OptionRoundTrip(a, rest);
  }

  lemma FieldsRoundTrip(st: LoaderState, rest: seq<u8>)
    ensures DecodeTagged(Tag(st), Fields(st) + rest) == Some(st)
  {
    match st {
      case Uninitialized =>
      case Buffer(a) =>
        OptionRoundTrip(a, rest);
      case Program(p) =>
        Cut(ToLE(p, 32), rest);
        KeyRoundTrip(p);
      case ProgramData(s, a) =>
        Regroup(ToLE(s, 8), EncodeOption(a), rest);
        ProgramDataRoundTrip(s, a, rest);
    }
  }

  /** A serialised state followed by any bytes decodes to that state. */
  lemma HeaderRoundTrip(st: LoaderState, rest: seq<u8>)
    ensures Decode(Encode(st) + rest) == Some(st)
  {
    Regroup(ToLE(Tag(st), 4), Fields(st), rest);
    TagRoundTrip(Tag(st), Fields(st) + rest);
    FieldsRoundTrip(st, rest);
  }

  /** Sizes of the serialised states; an absent authority leaves a header 32 bytes shorter. */
  lemma HeaderSizes(st: LoaderState)
    ensures |Encode(st)| ==
            match st {
              case Uninitialized => UNINITIALIZED_SIZE
              case Buffer(a) => if a.Some? then BUFFER_OFFSET else BUFFER_OFFSET - 32
              case Program(_) => PROGRAM_SIZE
              case ProgramData(_, a) => if a.Some? then PROGRAMDATA_OFFSET else PROGRAMDATA_OFFSET - 32
            }
  {
  }

  /**
   * The bytes themselves: the variant's number in four bytes, options behind one byte, numbers and keys low byte
   * first.
   */
  lemma WireForm(st: LoaderState)
    ensures match st
            case Uninitialized => Encode(st) == [0, 0, 0, 0]
            case Buffer(None) => Encode(st) == [1, 0, 0, 0] + [0]
            case Buffer(Some(k)) => Encode(st) == [1, 0, 0, 0] + [1] + ToLE(k, 32)
            case Program(p) => Encode(st) == [2, 0, 0, 0] + ToLE(p, 32)
            case ProgramData(s, None) => Encode(st) == [3, 0, 0, 0] + ToLE(s, 8) + [0]
            case ProgramData(s, Some(k)) => Encode(st) == [3, 0, 0, 0] + ToLE(s, 8) + [1] + ToLE(k, 32)
  {
    TagBytes(Tag(st));
    match st {
      case ProgramData(s, Some(k)) =>
        Regroup([3, 0, 0, 0], ToLE(s, 8), [1] + ToLE(k, 32));
        Regroup([3, 0, 0, 0] + ToLE(s, 8), [1], ToLE(k, 32));
      case ProgramData(s, None) => Regroup([3, 0, 0, 0], ToLE(s, 8), [0]);
      case Buffer(Some(k)) => Regroup([1, 0, 0, 0], [1], ToLE(k, 32));
      case _ =>
    }
  }

  lemma TagBytes(tag: nat)
    requires tag < 4
    ensures ToLE(tag, 4) == [tag, 0, 0, 0]
  {
    assert ToLE(tag, 4) == [tag] + ToLE(0, 3);
    assert ToLE(0, 3) == [0, 0, 0];
  }

  lemma ProgramDataBytes(rest: seq<u8>)
    requires 8 <= |rest| && DecodeOption(rest[8..]).Some?
    ensures var fields := ToLE(WordOf(rest[..8]), 8) + EncodeOption(DecodeOption(rest[8..]).value);
            |fields| <= |rest| && rest == fields + rest[|fields|..]
  {
    ToFromLE(rest[..8]);
    OptionBytes(rest[8..]);
    var option := EncodeOption(DecodeOption(rest[8..]).value);
    assert rest == rest[..8] + rest[8..];
    assert rest[8..][|option|..] == rest[8 + |option|..];
    Regroup(rest[..8], option, rest[8 + |option|..]);
  }

  lemma FieldBytes(tag: nat, rest: seq<u8>)
    requires DecodeTagged(tag, rest).Some?
    ensures var st := DecodeTagged(tag, rest).value;
            Tag(st) == tag && |Fields(st)| <= |rest| && rest == Fields(st) + rest[|Fields(st)|..]
  {
    match DecodeTagged(tag, rest).value {
      case Uninitialized =>
      case Buffer(a) =>
        OptionBytes(rest);
      case Program(p) =>
        ToFromLE(rest[..32]);
      case ProgramData(s, a) =>
        ProgramDataBytes(rest);
    }
  }

  /** A state can be read only from data that holds its whole serialised form. */
  lemma DecodedFits(d: seq<u8>)
    requires Decode(d).Some?
    ensures |Encode(Decode(d).value)| <= |d|
    ensures d == Encode(Decode(d).value) + d[|Encode(Decode(d).value)|..]
  {
    ToFromLE(d[..4]);
    FieldBytes(FromLE(d[..4]), d[4..]);
  }

  lemma OptionBytes(b: seq<u8>)
    requires DecodeOption(b).Some?
    ensures |EncodeOption(DecodeOption(b).value)| <= |b|
    ensures b == EncodeOption(DecodeOption(b).value) + b[|EncodeOption(DecodeOption(b).value)|..]
  {
    if b[0] == 1 {
      var k := b[1..33];
      ToFromLE(k);
      assert EncodeOption(Some(KeyOf(k))) == [1] + k;
    }
  }

  /** Data that agrees with `d` on the bytes of its header decodes to the same state. */
  lemma HeaderDecides(d: seq<u8>, e: seq<u8>)
    requires Decode(d).Some?
    requires |Encode(Decode(d).value)| <= |e|
    requires forall i :: 0 <= i < |Encode(Decode(d).value)| && i < |d| ==> e[i] == d[i]
    ensures Decode(e) == Decode(d)
  {
    var st := Decode(d).value;
    DecodedFits(d);
    assert e == Encode(st) + e[|Encode(st)|..];
    HeaderRoundTrip(st, e[|Encode(st)|..]);
  }

  /** `set_state`: overwrite the head of the data, or fail when it does not fit. */
  function SetState(d: seq<u8>, st: LoaderState): (r: Option<seq<u8>>)
    ensures r.Some? <==> |Encode(st)| <= |d|
    ensures r.Some? ==> |r.value| == |d|
  {
    if |d| < |Encode(st)| then None else Some(Splice(d, 0, Encode(st)))
  }

  /** `set_state` then `state` gives the state back, and no byte past the header moves. */
  lemma SetStateReads(d: seq<u8>, st: LoaderState)
    requires SetState(d, st).Some?
    ensures Decode(SetState(d, st).value) == Some(st)
    ensures forall i :: |Encode(st)| <= i < |d| ==> SetState(d, st).value[i] == d[i]
  {
    var e := SetState(d, st).value;
    assert e == Encode(st) + e[|Encode(st)|..];
    HeaderRoundTrip(st, e[|Encode(st)|..]);
  }

  lemma {:induction false} ZeroWord(b: seq<u8>)
    requires AllZero(b)
    ensures FromLE(b) == 0
  {
    if b != [] {
      ZeroWord(b[1..]);
    }
  }

  lemma ZeroDataIsUninitialized(d: seq<u8>)
    requires AllZero(d)
    ensures Decode(d) == if |d| < 4 then None else Some(Uninitialized)
  {
    if 4 <= |d| {
      ZeroWord(d[..4]);
    }
  }
}
