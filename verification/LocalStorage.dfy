/**
 Private local storage: one file per key, holding a length-prefixed header and the data.  The file name
 is a hash of the key, taken to be injective, so files are found by key.

 `loads` is the JSON reader; all that is asked of it is that it reads back what `Dumps` writes.
 */
module LocalStorage {
  import opened Wrappers
  import opened ObjectKeys

  type Byte = b: int | 0 <= b < 256 witness 0

  type Bytes = seq<Byte>

  const MAX_HEADER: nat := 4096

  datatype StorageError = InvalidInput | NotFound | Unavailable | TooLarge | CorruptObject | Closed

  datatype Metadata = Metadata(key: string, size: nat, contentType: string)

  datatype Stored = Stored(metadata: Metadata, data: Bytes)

  type Reader = Bytes -> Option<Header>

  // ---------------------------------------------------------------- the record format

  function Encode(s: string): Bytes
    requires Ascii(s)
  {
    seq(|s|, i requires 0 <= i < |s| => s[i] as int)
  }

  function Decode(b: Bytes): string {
    seq(|b|, i requires 0 <= i < |b| => b[i] as char)
  }

  lemma DecodeEncode(s: string)
    requires Ascii(s)
    ensures Decode(Encode(s)) == s
  {
  }

  function BigEndian(n: nat): Bytes
    requires n < 0x1_0000_0000
  {
    [n / 0x100_0000, n / 0x1_0000 % 256, n / 256 % 256, n % 256]
  }

  /** The number in the first four bytes, or fewer. */
  function Length(b: Bytes): nat {
    if b == [] then 0 else Length(b[..|b| - 1]) * 256 + b[|b| - 1]
  }

  lemma LengthOfBigEndian(n: nat)
    requires n < 0x1_0000_0000
    ensures Length(BigEndian(n)) == n
  {
    var b := BigEndian(n);
    assert b[..3] == [b[0], b[1], b[2]] && b[..3][..2] == [b[0], b[1]] && [b[0], b[1]][..1] == [b[0]] && [b[0]][..0] == [];
    var b0: int, b1: int, b2: int := b[0], b[1], b[2];
    assert Length([b[0]]) == b0;
    assert Length([b[0], b[1]]) == b0 * 256 + b1;
    assert Length(b[..3]) == (b0 * 256 + b1) * 256 + b2;
    assert n / 256 == n / 0x1_0000 * 256 + n / 256 % 256;
    assert n / 0x1_0000 == n / 0x100_0000 * 256 + n / 0x1_0000 % 256;
  }

  ghost predicate ReadsBack(loads: Reader) {
    forall key, size: nat, contentType | ValidKey(key) && ValidType(contentType) && size <= MAX_BYTES
                                         && Ascii(Dumps(key, size, contentType)) ::
      loads(Encode(Dumps(key, size, contentType))) == Some(Header(1, key, size, contentType))
  }

  lemma {:induction false} DumpsAscii(key: string, size: nat, contentType: string)
    requires ValidKey(key) && ValidType(contentType)
    ensures Ascii(Dumps(key, size, contentType))
  {
    ValidTexts(key, contentType);
    NumberOfDecimal(size);
    AsciiJoin(contentType, CLOSE);
    AsciiJoin(TYPE, contentType + CLOSE);
    AsciiJoin(Decimal(size), TYPE + (contentType + CLOSE));
    AsciiJoin(SIZE, Decimal(size) + (TYPE + (contentType + CLOSE)));
    AsciiJoin(key, SIZE + (Decimal(size) + (TYPE + (contentType + CLOSE))));
    AsciiJoin(OPEN, key + (SIZE + (Decimal(size) + (TYPE + (contentType + CLOSE)))));
  }

  lemma AsciiJoin(a: string, b: string)
    requires Ascii(a) && Ascii(b)
    ensures Ascii(a + b)
  {
  }

  /** Such readers exist: one that reads exactly what is written. */
  lemma ReaderExists()
    ensures ReadsBack(b => Loads(Decode(b)))
  {
    var loads: Reader := b => Loads(Decode(b));
    forall key, size: nat, contentType | ValidKey(key) && ValidType(contentType) && size <= MAX_BYTES
                                         && Ascii(Dumps(key, size, contentType))
      ensures loads(Encode(Dumps(key, size, contentType))) == Some(Header(1, key, size, contentType))
    {
      ValidTexts(key, contentType);
      LoadsUndoesDumps(key, size, contentType);
      DecodeEncode(Dumps(key, size, contentType));
    }
  }

  function HeaderOf(key: string, size: nat, contentType: string): Bytes
    requires ValidKey(key) && ValidType(contentType)
  {
    DumpsAscii(key, size, contentType);
    Encode(Dumps(key, size, contentType))
  }

  function Record(key: string, data: Bytes, contentType: string): Bytes
    requires ValidKey(key) && ValidType(contentType) && |data| <= MAX_BYTES
  {
    HeaderFits(key, |data|, contentType);
    var header := HeaderOf(key, |data|, contentType);
    BigEndian(|header|) + header + data
  }

  function Min(a: nat, b: nat): nat {
    if a < b then a else b
  }

  /** `_read_header` on a file read from its start. */
  function ReadHeader(loads: Reader, file: Bytes, key: string): Option<Metadata> {
    var prefix := file[..Min(4, |file|)];
    var length := Length(prefix);
    if |prefix| != 4 || !(0 < length <= MAX_HEADER) then None
    else
      match loads(file[4..Min(4 + length, |file|)])
      case None => None
      case Some(h) =>
        if h.version != 1 || h.key != key || h.size < 0 || h.size != |file| - 4 - length || !ValidType(h.contentType) then None
        else Some(Metadata(key, h.size, h.contentType))
  }

  /** `_read`; `whole` asks for the data, which must not exceed the limit. */
  function Read(loads: Reader, file: Bytes, key: string, limit: nat, whole: bool): Result<Stored, StorageError> {
    match ReadHeader(loads, file, key)
    case None => Err(CorruptObject)
    case Some(m) =>
      if !whole then Ok(Stored(m, []))
      else if m.size > limit then Err(TooLarge)
      else
        var start := 4 + Length(file[..Min(4, |file|)]);
        var data := if start <= |file| then file[start..Min(start + m.size + 1, |file|)] else [];
        if |data| != m.size then Err(CorruptObject) else Ok(Stored(m, data))
  }

  lemma RecordParts(key: string, data: Bytes, contentType: string)
    requires ValidKey(key) && ValidType(contentType) && |data| <= MAX_BYTES
    ensures var h := HeaderOf(key, |data|, contentType); var file := Record(key, data, contentType);
            && 0 < |h| <= MAX_HEADER && |file| == 4 + |h| + |data|
            && Length(file[..4]) == |h| && file[4..4 + |h|] == h && file[4 + |h|..] == data
  {
    HeaderFits(key, |data|, contentType);
    var h := HeaderOf(key, |data|, contentType);
    LengthOfBigEndian(|h|);
    assert Record(key, data, contentType)[..4] == BigEndian(|h|);
  }

  /** Every record that is written is read back unchanged. */
  lemma RecordReadsBack(loads: Reader, key: string, data: Bytes, contentType: string, limit: nat)
    requires ReadsBack(loads) && ValidKey(key) && ValidType(contentType) && |data| <= limit <= MAX_BYTES
    ensures var m := Metadata(key, |data|, contentType);
            && Read(loads, Record(key, data, contentType), key, limit, true) == Ok(Stored(m, data))
            && Read(loads, Record(key, data, contentType), key, limit, false) == Ok(Stored(m, []))
  {
    hide Record, HeaderOf, Dumps, Length, ValidKey, ValidType;
    RecordParts(key, data, contentType);
    var file := Record(key, data, contentType);
    HeaderLoads(loads, key, |data|, contentType);
    assert Min(4, |file|) == 4 && Min(4 + Length(file[..4]), |file|) == 4 + Length(file[..4]);
    assert file[4 + Length(file[..4])..|file|] == data;
  }

  lemma HeaderLoads(loads: Reader, key: string, size: nat, contentType: string)
    requires ReadsBack(loads) && ValidKey(key) && ValidType(contentType) && size <= MAX_BYTES
    ensures loads(HeaderOf(key, size, contentType)) == Some(Header(1, key, size, contentType))
  {
    DumpsAscii(key, size, contentType);
  }

  /** A file cut short anywhere, or with anything added, is corrupt, whatever the reader makes of it. */
  lemma OtherLengthIsCorrupt(loads: Reader, key: string, data: Bytes, contentType: string, limit: nat, file: Bytes, whole: bool)
    requires ReadsBack(loads) && ValidKey(key) && ValidType(contentType) && |data| <= limit <= MAX_BYTES
    requires var record := Record(key, data, contentType); file != record && (file <= record || record <= file)
    ensures Read(loads, file, key, limit, whole) == Err(CorruptObject)
  {
    hide Record, HeaderOf, Dumps, Length, ValidKey, ValidType;
    RecordParts(key, data, contentType);
    HeaderLoads(loads, key, |data|, contentType);
    var record := Record(key, data, contentType);
    var length := Length(record[..4]);
    assert |file| != |record| by {
      if file <= record { assert |file| == |record| ==> file == record; }
      if record <= file { assert |file| == |record| ==> file == record; }
    }
    if |file| >= 4 {
      assert file[..4] == record[..4];
      if |file| >= 4 + length { assert file[4..4 + length] == record[4..4 + length]; }
    }
  }

  /** Which files have a header that is accepted: its length of at most 4096 first, then the header for this key, then as
      many bytes as it says. */
  lemma HeaderAcceptedExactlyWhen(loads: Reader, prefix: Bytes, header: Bytes, data: Bytes, key: string)
    requires |prefix| == 4 && Length(prefix) == |header|
    ensures ReadHeader(loads, prefix + header + data, key).Some? <==>
            0 < |header| <= 4096 && loads(header).Some? &&
            var h := loads(header).value; h.version == 1 && h.key == key && h.size == |data| && ValidType(h.contentType)
  {
    var file := prefix + header + data;
    assert file[..4] == prefix && file[4..4 + |header|] == header;
  }

  /** A record found under another key is corrupt. */
  lemma OtherKeyIsCorrupt(loads: Reader, key: string, data: Bytes, contentType: string, other: string, limit: nat, whole: bool)
    requires ReadsBack(loads) && ValidKey(key) && ValidType(contentType) && |data| <= MAX_BYTES && other != key
    ensures Read(loads, Record(key, data, contentType), other, limit, whole) == Err(CorruptObject)
  {
    hide Record, HeaderOf, Dumps, Length, ValidKey, ValidType;
    RecordParts(key, data, contentType);
    HeaderLoads(loads, key, |data|, contentType);
  }

  /** A record that has become larger than the limit is not read, but still described. */
  lemma TooLargeIsDescribed(loads: Reader, key: string, data: Bytes, contentType: string, limit: nat)
    requires ReadsBack(loads) && ValidKey(key) && ValidType(contentType) && limit < |data| <= MAX_BYTES
    ensures Read(loads, Record(key, data, contentType), key, limit, true) == Err(TooLarge)
    ensures Read(loads, Record(key, data, contentType), key, limit, false) == Ok(Stored(Metadata(key, |data|, contentType), []))
  {
    hide Record, HeaderOf, Dumps, Length, ValidKey, ValidType;
    RecordParts(key, data, contentType);
    HeaderLoads(loads, key, |data|, contentType);
  }

  // ---------------------------------------------------------------- the storage

  /** What a storage holds, as its callers see it. */
  type Contents = map<string, (string, Bytes)>

  function Visible(loads: Reader, files: map<string, Bytes>, limit: nat): Contents {
    map k | k in files && Read(loads, files[k], k, limit, true).Ok? ::
      var x := Read(loads, files[k], k, limit, true).value; (x.metadata.contentType, x.data)
  }

  class LocalObjectStorage {
    const limit: nat
    const loads: Reader
    var files: map<string, Bytes>
    var closed: bool

    constructor (loads: Reader, limit: nat)
      requires ReadsBack(loads) && limit <= MAX_BYTES
      ensures this.loads == loads && this.limit == limit && files == map[] && !closed
    {
      this.loads, this.limit := loads, limit;
      files, closed := map[], false;
    }

    /** `fault`: the disk refused somewhere before the file was replaced. */
    method Store(key: string, data: Bytes, contentType: string, fault: bool) returns (r: Result<Metadata, StorageError>)
      requires ReadsBack(loads) && limit <= MAX_BYTES
      modifies this`files
      ensures r.Err? ==> files == old(files)
      ensures r.Ok? <==> ValidKey(key) && ValidType(contentType) && |data| <= limit && !closed && !fault
      ensures r.Err? ==> r.error == if !ValidKey(key) || !ValidType(contentType) then InvalidInput
                                    else if |data| > limit then TooLarge
                                    else if closed then Closed else Unavailable
      ensures r.Ok? ==> r.value == Metadata(key, |data|, contentType)
                        && Visible(loads, files, limit) == Visible(loads, old(files), limit)[key := (contentType, data)]
    {
      if !ValidKey(key) || !ValidType(contentType) {
        return Err(InvalidInput);
      }
      if |data| > limit {
        return Err(TooLarge);
      }
      if closed {
        return Err(Closed);
      }
      if fault {
        return Err(Unavailable);
      }
      HeaderFits(key, |data|, contentType);
      var header := HeaderOf(key, |data|, contentType);
      files := files[key := BigEndian(|header|) + header + data];
      RecordReadsBack(loads, key, data, contentType, limit);
      return Ok(Metadata(key, |data|, contentType));
    }

    method Get(key: string) returns (r: Result<Stored, StorageError>)
      ensures !ValidKey(key) ==> r == Err(InvalidInput)
      ensures ValidKey(key) && closed ==> r == Err(Closed)
      ensures ValidKey(key) && !closed ==>
                var seen := Visible(loads, files, limit);
                && (r.Ok? <==> key in seen)
                && (r.Ok? ==> r.value == Stored(Metadata(key, |seen[key].1|, seen[key].0), seen[key].1))
                && (r == Err(NotFound) <==> key !in files)
    {
      if !ValidKey(key) {
        return Err(InvalidInput);
      }
      if closed {
        return Err(Closed);
      }
      if key !in files {
        return Err(NotFound);
      }
      r := Read(loads, files[key], key, limit, true);
    }

    method Delete(key: string) returns (r: Result<(), StorageError>)
      modifies this`files
      ensures r == if !ValidKey(key) then Err(InvalidInput) else if closed then Err(Closed) else Ok(())
      ensures Visible(loads, files, limit) ==
              if r.Ok? then Visible(loads, old(files), limit) - {key} else Visible(loads, old(files), limit)
    {
      if !ValidKey(key) {
        return Err(InvalidInput);
      }
      if closed {
        return Err(Closed);
      }
      files := files - {key};
      return Ok(());
    }
  }
}
