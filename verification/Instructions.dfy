/** UpgradeableLoaderInstruction, its wire form, and the encoders of the deployment script. */
module Instructions {
  import opened Bytes

  /** Byte strings whose length fits the eight-byte length prefix. */
  type Payload = b: seq<u8> | |b| < TWO_64

  datatype Instruction =
    | InitializeBuffer
    | Write(offset: u32, bytes: Payload)
    | DeployWithMaxDataLen(maxDataLen: u64)
    | Upgrade
    | SetAuthority
    | Close
    | ExtendProgram(additionalBytes: u32)
    | SetAuthorityChecked

  function Tag(ix: Instruction): (t: nat)
    ensures t < 8
  {
    match ix
    case InitializeBuffer => 0
    case Write(_, _) => 1
    case DeployWithMaxDataLen(_) => 2
    case Upgrade => 3
    case SetAuthority => 4
    case Close => 5
    case ExtendProgram(_) => 6
    case SetAuthorityChecked => 7
  }

  function Fields(ix: Instruction): seq<u8> {
    match ix
    case Write(offset, bytes) => ToLE(offset, 4) + (ToLE(|bytes|, 8) + bytes)
    case DeployWithMaxDataLen(len) => ToLE(len, 8)
    case ExtendProgram(n) => ToLE(n, 4)
    case _ => []
  }

  function Serialize(ix: Instruction): seq<u8> {
    ToLE(Tag(ix), 4) + Fields(ix)
  }

  function HalfWordOf(b: seq<u8>): u32
    requires |b| == 4
  {
    WordSizes();
    FromLE(b)
  }

  function DeserializeBytes(b: seq<u8>): (r: Option<Payload>) {
    if |b| < 8 then None else
    var n := WordOf(b[..8]);
    if |b| - 8 < n then None else Some(b[8..8 + n])
  }

  function DeserializeFields(tag: nat, b: seq<u8>): Option<Instruction> {
    match tag
    case 0 => Some(InitializeBuffer)
    case 1 =>
      if |b| < 4 then None else
      (match DeserializeBytes(b[4..])
       case None => None
       case Some(bytes) => Some(Write(HalfWordOf(b[..4]), bytes)))
    case 2 => if |b| < 8 then None else Some(DeployWithMaxDataLen(WordOf(b[..8])))
    case 3 => Some(Upgrade)
    case 4 => Some(SetAuthority)
    case 5 => Some(Close)
    case 6 => if |b| < 4 then None else Some(ExtendProgram(HalfWordOf(b[..4])))
    case 7 => Some(SetAuthorityChecked)
    case _ => None
  }

  /** Bytes after the last field are ignored. */
  function Deserialize(data: seq<u8>): Option<Instruction> {
    if |data| < 4 then None else DeserializeFields(FromLE(data[..4]), data[4..])
  }

  /** The processor's own enum stops at `Close`; the two later tags do not decode there. */
  function DeserializeForProcessor(data: seq<u8>): Option<Instruction> {
    match Deserialize(data)
    case Some(ix) => if Tag(ix) < 6 then Some(ix) else None
    case None => None
  }

  lemma BytesRoundTrip(bytes: Payload, rest: seq<u8>)
    ensures DeserializeBytes(ToLE(|bytes|, 8) + bytes + rest) == Some(bytes)
  {
    var b := ToLE(|bytes|, 8) + bytes + rest;
    Cut(ToLE(|bytes|, 8) + bytes, rest);
    Cut(ToLE(|bytes|, 8), bytes);
    assert b[..8] == ToLE(|bytes|, 8) && b[8..8 + |bytes|] == bytes;
    WordRoundTrip(|bytes|);
  }

  lemma HalfWordRoundTrip(n: u32)
    ensures HalfWordOf(ToLE(n, 4)) == n
  {
    WordSizes();
    FromToLE(n, 4);
  }

  lemma WriteRoundTrip(offset: u32, bytes: Payload, rest: seq<u8>)
    ensures DeserializeFields(1, ToLE(offset, 4) + (ToLE(|bytes|, 8) + bytes + rest)) == Some(Write(offset, bytes))
  {
    Cut(ToLE(offset, 4), ToLE(|bytes|, 8) + bytes + rest);
    HalfWordRoundTrip(offset);
    BytesRoundTrip(bytes, rest);
  }

  lemma FieldsRoundTrip(ix: Instruction, rest: seq<u8>)
    ensures DeserializeFields(Tag(ix), Fields(ix) + rest) == Some(ix)
  {
    var b := Fields(ix) + rest;
    match ix {
      case Write(offset, bytes) =>
        Regroup(ToLE(offset, 4), ToLE(|bytes|, 8) + bytes, rest);
        WriteRoundTrip(offset, bytes, rest);
      case DeployWithMaxDataLen(len) =>
        assert b[..8] == ToLE(len, 8);
        WordRoundTrip(len);
      case ExtendProgram(n) =>
        assert b[..4] == ToLE(n, 4);
        HalfWordRoundTrip(n);
      case _ =>
    }
  }

  lemma TagRoundTrip(tag: nat, rest: seq<u8>)
    requires tag < 8
    ensures Deserialize(ToLE(tag, 4) + rest) == DeserializeFields(tag, rest)
  {
    var data := ToLE(tag, 4) + rest;
    assert data[..4] == ToLE(tag, 4) && data[4..] == rest;
    WordSizes();
    FromToLE(tag, 4);
  }

  /** Every instruction is read back from its wire form, whatever bytes follow. */
  lemma InstructionRoundTrip(ix: Instruction, rest: seq<u8>)
    ensures Deserialize(Serialize(ix) + rest) == Some(ix)
  {
    Regroup(ToLE(Tag(ix), 4), Fields(ix), rest);
    TagRoundTrip(Tag(ix), Fields(ix) + rest);
    FieldsRoundTrip(ix, rest);
  }

  lemma PrefixReads(ix: Instruction, wire: seq<u8>)
    requires Serialize(ix) <= wire
    ensures Deserialize(wire) == Some(ix)
  {
    InstructionRoundTrip(ix, wire[|Serialize(ix)|..]);
    assert Serialize(ix) + wire[|Serialize(ix)|..] == wire;
  }

  /** No two instructions share a wire form; none is a prefix of another's. */
  lemma SerializeInjective(a: Instruction, b: Instruction)
    requires Serialize(a) <= Serialize(b)
    ensures a == b
  {
    PrefixReads(a, Serialize(b));
    PrefixReads(b, Serialize(b));
  }

  predicate IsUpgradeInstruction(data: seq<u8>) { data != [] && data[0] == 3 }
  predicate IsSetAuthorityInstruction(data: seq<u8>) { data != [] && data[0] == 4 }
  predicate IsCloseInstruction(data: seq<u8>) { data != [] && data[0] == 5 }
  predicate IsSetAuthorityCheckedInstruction(data: seq<u8>) { data != [] && data[0] == 7 }

  /** Each recogniser looks at one byte and still tells its own variant from all seven others. */
  lemma RecognisersExact(ix: Instruction)
    ensures IsUpgradeInstruction(Serialize(ix)) <==> ix.Upgrade?
    ensures IsSetAuthorityInstruction(Serialize(ix)) <==> ix.SetAuthority?
    ensures IsCloseInstruction(Serialize(ix)) <==> ix.Close?
    ensures IsSetAuthorityCheckedInstruction(Serialize(ix)) <==> ix.SetAuthorityChecked?
  {
    assert Serialize(ix)[0] == Tag(ix);
  }

  /** Node's Buffer.writeUInt32LE / writeBigUInt64LE: one byte per step, low byte first. */
  method WriteUIntLE(value: nat, buffer: array<u8>)
    modifies buffer
    ensures buffer[..] == ToLE(value, buffer.Length)
  {
    var v := value;
    var i := 0;
    while i < buffer.Length
      invariant 0 <= i <= buffer.Length
      invariant ToLE(value, buffer.Length) == buffer[..i] + ToLE(v, buffer.Length - i)
    {
      buffer[i] := v % 256;
      v := v / 256;
      i := i + 1;
    }
  }

  lemma WriteWireForm(offset: u32, data: Payload)
    ensures [1, 0, 0, 0] + ToLE(offset, 4) + ToLE(|data|, 8) + data == Serialize(Write(offset, data))
  {
    assert ToLE(1, 4) == [1, 0, 0, 0];
    Regroup(ToLE(1, 4) + ToLE(offset, 4), ToLE(|data|, 8), data);
    Regroup(ToLE(1, 4), ToLE(offset, 4), ToLE(|data|, 8) + data);
  }

  /** The script's Write encoder; an offset past 32 bits is a RangeError (None). */
  method EncodeWriteInstruction(offset: nat, data: Payload) returns (r: Option<seq<u8>>)
    ensures r == if offset < TWO_32 then Some(Serialize(Write(offset, data))) else None
  {
    var discriminator: seq<u8> := [1, 0, 0, 0];
    if offset >= TWO_32 {
      return None;
    }
    var offsetBuffer := new u8[4];
    WriteUIntLE(offset, offsetBuffer);
    var dataLenBuffer := new u8[8];
    WriteUIntLE(|data|, dataLenBuffer);
    r := Some(discriminator + offsetBuffer[..] + dataLenBuffer[..] + data);
    WriteWireForm(offset, data);
  }

  /** The script's DeployWithMaxDataLen encoder; a length past 64 bits is a RangeError (None). */
  method EncodeDeployWithMaxDataLenInstruction(bufferSize: nat) returns (r: Option<seq<u8>>)
    ensures r == if bufferSize < TWO_64 then Some(Serialize(DeployWithMaxDataLen(bufferSize))) else None
  {
    var discriminator: seq<u8> := [2, 0, 0, 0];
    if bufferSize >= TWO_64 {
      return None;
    }
    var maxDataLenBuffer := new u8[8];
    WriteUIntLE(bufferSize, maxDataLenBuffer);
    assert discriminator == ToLE(2, 4);
    return Some(discriminator + maxDataLenBuffer[..]);
  }

  /** The four zero bytes the script sends are InitializeBuffer's wire form, and decode to it. */
  lemma ScriptInitializeBuffer()
    ensures [0, 0, 0, 0] == Serialize(InitializeBuffer)
    ensures DeserializeForProcessor([0, 0, 0, 0]) == Some(InitializeBuffer)
  {
    var wire := Serialize(InitializeBuffer);
    assert wire == [0, 0, 0, 0];
    InstructionRoundTrip(InitializeBuffer, []);
    assert wire + [] == wire;
  }

  /** What the processor reads: the first six variants round-trip, the last two are refused. */
  lemma ProcessorReads(ix: Instruction, rest: seq<u8>)
    ensures DeserializeForProcessor(Serialize(ix) + rest) ==
            if ix.ExtendProgram? || ix.SetAuthorityChecked? then None else Some(ix)
  {
    InstructionRoundTrip(ix, rest);
  }

  /** An encoded instruction without trailing bytes is read back by the processor, if it knows the variant. */
  lemma EncodedIsRead(ix: Instruction)
    ensures DeserializeForProcessor(Serialize(ix)) == if Tag(ix) < 6 then Some(ix) else None
  {
    ProcessorReads(ix, []);
    assert Serialize(ix) + [] == Serialize(ix);
  }
}
