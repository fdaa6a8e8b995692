/** The media-type sniffing of the file preview: the first four bytes of a
    blob, written as lower-case hex, are matched against known prefixes. */
module FilePreview {
  import opened Wrappers
  import opened Backend
  import opened Text

  datatype FileKind = Image | Audio | Model3d | Unknown

  datatype Detected = Detected(kind: FileKind, mimeType: string)

  /** The digit `d` in base 16, lower case, as `toString(16)` writes it. */
  function HexDigit(d: int): char
    requires 0 <= d < 16
  {
    if d < 10 then ('0' as int + d) as char else ('a' as int + d - 10) as char
  }

  /** `b.toString(16)` */
  function ToHex(b: byte): string {
    if b < 16 then [HexDigit(b as int)] else [HexDigit(b as int / 16), HexDigit(b as int % 16)]
  }

  /** `s.padStart(2, '0')` */
  function PadStart2(s: string): string {
    if |s| >= 2 then s else seq(2 - |s|, _ => '0') + s
  }

  /** One byte of the signature. */
  function HexByte(b: byte): string {
    PadStart2(ToHex(b))
  }

  /** Every byte becomes exactly two lower-case hex digits, high nibble first. */
  lemma HexByteDigits(b: byte)
    ensures HexByte(b) == [HexDigit(b as int / 16), HexDigit(b as int % 16)]
  {
  }

  /** Different bytes give different digit pairs, so the hex form can be read back. */
  lemma HexByteInjective(a: byte, b: byte)
    ensures HexByte(a) == HexByte(b) ==> a == b
  {
    HexByteDigits(a);
    HexByteDigits(b);
    if HexByte(a) == HexByte(b) {
      assert HexDigit(a as int / 16) == HexDigit(b as int / 16);
      assert HexDigit(a as int % 16) == HexDigit(b as int % 16);
      assert a as int == 16 * (a as int / 16) + a as int % 16;
      assert b as int == 16 * (b as int / 16) + b as int % 16;
    }
  }

  /** `Array.from(bytes).map(...).join('')` */
  function Hex(bytes: seq<byte>): (r: string)
    ensures |r| == 2 * |bytes|
  {
    if bytes == [] then "" else HexByte(bytes[0]) + Hex(bytes[1..])
  }

  /** The signature: the hex form of `blob.slice(0, 4)`. */
  function Signature(blob: seq<byte>): string {
    Hex(blob[..Min(4, |blob|)])
  }

  function Min(a: int, b: int): int {
    if a <= b then a else b
  }

  const OctetStream := Detected(Unknown, "application/octet-stream")

  /** The chain of `startsWith` tests, in the order the preview runs them. */
  function ClassifySignature(signature: string): Detected {
    if StartsWith(signature, "ffd8ff") then Detected(Image, "image/jpeg")
    else if StartsWith(signature, "89504e47") then Detected(Image, "image/png")
    else if StartsWith(signature, "47494638") then Detected(Image, "image/gif")
    else if StartsWith(signature, "52494646") then Detected(Image, "image/webp")
    else if StartsWith(signature, "494433") || StartsWith(signature, "fffb") then Detected(Audio, "audio/mpeg")
    else if StartsWith(signature, "4f676753") then Detected(Audio, "audio/ogg")
    else if StartsWith(signature, "676c5446") then Detected(Model3d, "model/gltf-binary")
    else OctetStream
  }

  /** The preview's effect: a missing or empty blob is unknown, anything else
      is classified by its signature. */
  function Detect(blob: Option<seq<byte>>): Detected {
    if blob.None? || |blob.value| == 0 then OctetStream
    else ClassifySignature(Signature(blob.value))
  }

  /** An object URL is made for the blob only when it was classified as an image. */
  predicate CreatesObjectUrl(d: Detected) {
    d.kind == Image
  }

  /** The recognised signatures as bytes, in the order they are tested. */
  const Table: seq<(seq<byte>, Detected)> := [
    ([0xff, 0xd8, 0xff], Detected(Image, "image/jpeg")),
    ([0x89, 0x50, 0x4e, 0x47], Detected(Image, "image/png")),
    ([0x47, 0x49, 0x46, 0x38], Detected(Image, "image/gif")),
    ([0x52, 0x49, 0x46, 0x46], Detected(Image, "image/webp")),
    ([0x49, 0x44, 0x33], Detected(Audio, "audio/mpeg")),
    ([0xff, 0xfb], Detected(Audio, "audio/mpeg")),
    ([0x4f, 0x67, 0x67, 0x53], Detected(Audio, "audio/ogg")),
    ([0x67, 0x6c, 0x54, 0x46], Detected(Model3d, "model/gltf-binary"))
  ]

  predicate IsPrefix(p: seq<byte>, s: seq<byte>) {
    |p| <= |s| && s[..|p|] == p
  }

  /** Reference classification on bytes: the first table entry that is a
      prefix of the head, else unknown. */
  function LookupFrom(head: seq<byte>, k: nat): Detected
    requires k <= |Table|
    decreases |Table| - k
  {
    if k == |Table| then OctetStream
    else if IsPrefix(Table[k].0, head) then Table[k].1
    else LookupFrom(head, k + 1)
  }

  /** Matching hex strings is matching bytes. */
  lemma {:induction false} HexPrefix(p: seq<byte>, s: seq<byte>)
    ensures StartsWith(Hex(s), Hex(p)) <==> IsPrefix(p, s)
    decreases |p|
  {
    if p != [] && s != [] {
      HexPrefix(p[1..], s[1..]);
      HexByteInjective(p[0], s[0]);
      HexByteDigits(p[0]);
      HexByteDigits(s[0]);
      var hs, hp := Hex(s), Hex(p);
      assert hs == HexByte(s[0]) + Hex(s[1..]);
      assert hp == HexByte(p[0]) + Hex(p[1..]);
      if StartsWith(hs, hp) {
        assert hs[..2] == hp[..2];
        assert HexByte(s[0]) == HexByte(p[0]);
        assert hs[2..][..|hp| - 2] == hp[2..];
        assert s[..|p|] == [s[0]] + s[1..][..|p| - 1];
      }
      if IsPrefix(p, s) {
        assert s[0] == p[0];
        assert s[1..][..|p| - 1] == p[1..];
        assert hs[..|hp|] == HexByte(s[0]) + Hex(s[1..])[..|hp| - 2];
      }
    }
  }

  lemma Hex2(a: byte, b: byte)
    ensures Hex([a, b]) == HexByte(a) + HexByte(b)
  {
    assert Hex([b]) == HexByte(b) + Hex([]);
    assert Hex([a, b]) == HexByte(a) + Hex([b]);
  }

  lemma Hex3(a: byte, b: byte, c: byte)
    ensures Hex([a, b, c]) == HexByte(a) + HexByte(b) + HexByte(c)
  {
    Hex2(b, c);
    assert Hex([a, b, c]) == HexByte(a) + Hex([b, c]);
  }

  lemma Hex4(a: byte, b: byte, c: byte, d: byte)
    ensures Hex([a, b, c, d]) == HexByte(a) + HexByte(b) + HexByte(c) + HexByte(d)
  {
    Hex3(b, c, d);
    assert Hex([a, b, c, d]) == HexByte(a) + Hex([b, c, d]);
  }

  /** The hex literals the preview tests are the byte signatures of the table. */
  lemma TableLiterals()
    ensures Hex(Table[0].0) == "ffd8ff"
    ensures Hex(Table[1].0) == "89504e47"
    ensures Hex(Table[2].0) == "47494638"
    ensures Hex(Table[3].0) == "52494646"
    ensures Hex(Table[4].0) == "494433"
    ensures Hex(Table[5].0) == "fffb"
    ensures Hex(Table[6].0) == "4f676753"
    ensures Hex(Table[7].0) == "676c5446"
  {
    Literal0();
    Literal1();
    Literal2();
    Literal3();
    Literal4();
    Literal5();
    Literal6();
    Literal7();
  }

  lemma Literal0()
    ensures Hex(Table[0].0) == "ffd8ff"
  {
    Hex3(0xff, 0xd8, 0xff);
    HexByteDigits(0xd8);
    HexByteDigits(0xff);
  }

  lemma Literal1()
    ensures Hex(Table[1].0) == "89504e47"
  {
    Hex4(0x89, 0x50, 0x4e, 0x47);
    HexByteDigits(0x47);
    HexByteDigits(0x4e);
    HexByteDigits(0x50);
    HexByteDigits(0x89);
  }

  lemma Literal2()
    ensures Hex(Table[2].0) == "47494638"
  {
    Hex4(0x47, 0x49, 0x46, 0x38);
    HexByteDigits(0x38);
    HexByteDigits(0x46);
    HexByteDigits(0x47);
    HexByteDigits(0x49);
  }

  lemma Literal3()
    ensures Hex(Table[3].0) == "52494646"
  {
    Hex4(0x52, 0x49, 0x46, 0x46);
    HexByteDigits(0x46);
    HexByteDigits(0x49);
    HexByteDigits(0x52);
  }

  lemma Literal4()
    ensures Hex(Table[4].0) == "494433"
  {
    Hex3(0x49, 0x44, 0x33);
    HexByteDigits(0x33);
    HexByteDigits(0x44);
    HexByteDigits(0x49);
  }

  lemma Literal5()
    ensures Hex(Table[5].0) == "fffb"
  {
    Hex2(0xff, 0xfb);
    HexByteDigits(0xfb);
    HexByteDigits(0xff);
  }

  lemma Literal6()
    ensures Hex(Table[6].0) == "4f676753"
  {
    Hex4(0x4f, 0x67, 0x67, 0x53);
    HexByteDigits(0x4f);
    HexByteDigits(0x53);
    HexByteDigits(0x67);
  }

  lemma Literal7()
    ensures Hex(Table[7].0) == "676c5446"
  {
    Hex4(0x67, 0x6c, 0x54, 0x46);
    HexByteDigits(0x46);
    HexByteDigits(0x54);
    HexByteDigits(0x67);
    HexByteDigits(0x6c);
  }

  /** The head of a blob: the bytes its signature is made of. */
  function Head(blob: seq<byte>): seq<byte> {
    blob[..Min(4, |blob|)]
  }

  /** The preview's `startsWith` chain classifies every non-empty blob exactly
      as the byte table does. */
  lemma {:induction false} DetectAgreesWithTable(blob: seq<byte>)
    requires |blob| > 0
    ensures Detect(Some(blob)) == LookupFrom(Head(blob), 0)
  {
    var head := Head(blob);
    TableLiterals();
    forall k | 0 <= k < |Table| ensures StartsWith(Hex(head), Hex(Table[k].0)) <==> IsPrefix(Table[k].0, head) {
      HexPrefix(Table[k].0, head);
    }
  }

  /** The signatures differ already in their first two bytes. */
  lemma LeadingPairsDistinct()
    ensures forall k :: 0 <= k < |Table| ==> |Table[k].0| >= 2
    ensures forall i, j :: 0 <= i < |Table| && 0 <= j < |Table| && i != j ==> Table[i].0[..2] != Table[j].0[..2]
  {
    var keys := seq(|Table|, k requires 0 <= k < |Table| => Table[k].0[0] as int * 256 + Table[k].0[1] as int);
    assert keys == [0xffd8, 0x8950, 0x4749, 0x5249, 0x4944, 0xfffb, 0x4f67, 0x676c];
    forall i, j | 0 <= i < |Table| && 0 <= j < |Table| && i != j ensures Table[i].0[..2] != Table[j].0[..2] {
      assert keys[i] != keys[j];
    }
  }

  /** No signature is a prefix of another, ... */
  lemma SignaturesDisjoint()
    ensures forall i, j :: 0 <= i < |Table| && 0 <= j < |Table| && i != j ==> !IsPrefix(Table[i].0, Table[j].0)
  {
    LeadingPairsDistinct();
    forall i, j | 0 <= i < |Table| && 0 <= j < |Table| && i != j ensures !IsPrefix(Table[i].0, Table[j].0) {
      var p, q := Table[i].0, Table[j].0;
      if |p| <= |q| {
        assert q[..|p|][..2] == q[..2];
      }
    }
  }

  /** ... so at most one table entry matches any blob, and the order of the
      tests is irrelevant: the matching entry decides. */
  lemma {:induction false} MatchDecides(head: seq<byte>, k: nat)
    requires k < |Table| && IsPrefix(Table[k].0, head)
    ensures forall j :: 0 <= j < |Table| && j != k ==> !IsPrefix(Table[j].0, head)
    ensures LookupFrom(head, 0) == Table[k].1
  {
    LeadingPairsDistinct();
    var q := Table[k].0;
    assert head[..2] == q[..2] by { assert head[..|q|][..2] == head[..2]; }
    forall j | 0 <= j < |Table| && j != k ensures !IsPrefix(Table[j].0, head) {
      var p := Table[j].0;
      if |p| <= |head| {
        assert head[..|p|][..2] == head[..2];
      }
    }
    LookupSkips(head, 0, k);
  }

  lemma {:induction false} LookupSkips(head: seq<byte>, i: nat, k: nat)
    requires i <= k < |Table| && IsPrefix(Table[k].0, head)
    requires forall j :: i <= j < k ==> !IsPrefix(Table[j].0, head)
    ensures LookupFrom(head, i) == Table[k].1
    decreases k - i
  {
    if i < k {
      LookupSkips(head, i + 1, k);
    }
  }

  /** A blob that matches no signature is unknown. */
  lemma {:induction false} NoMatchUnknown(head: seq<byte>, i: nat)
    requires i <= |Table|
    requires forall j :: i <= j < |Table| ==> !IsPrefix(Table[j].0, head)
    ensures LookupFrom(head, i) == OctetStream
    decreases |Table| - i
  {
    if i < |Table| {
      NoMatchUnknown(head, i + 1);
    }
  }

  /** Every signature is at least two bytes long, so a one-byte blob is unknown. */
  lemma OneByteUnknown(blob: seq<byte>)
    requires |blob| == 1
    ensures Detect(Some(blob)) == OctetStream
  {
    DetectAgreesWithTable(blob);
    NoMatchUnknown(Head(blob), 0);
  }

  /** A missing or empty blob is unknown. */
  lemma EmptyUnknown()
    ensures Detect(None) == OctetStream && Detect(Some([])) == OctetStream
  {
  }

  /** The classification reads nothing past the fourth byte. */
  lemma FirstFourBytesDecide(a: seq<byte>, b: seq<byte>)
    requires Head(a) == Head(b) && |a| > 0 && |b| > 0
    ensures Detect(Some(a)) == Detect(Some(b))
  {
    DetectAgreesWithTable(a);
    DetectAgreesWithTable(b);
  }

  predicate IsLowerHexDigit(c: char) {
    '0' <= c <= '9' || 'a' <= c <= 'f'
  }

  /** The signature is two lower-case hex digits for each of the first
      min(4, length) bytes. */
  lemma {:induction false} SignatureShape(bytes: seq<byte>)
    ensures |Hex(bytes)| == 2 * |bytes|
    ensures forall i :: 0 <= i < |Hex(bytes)| ==> IsLowerHexDigit(Hex(bytes)[i])
    decreases |bytes|
  {
    if bytes != [] {
      SignatureShape(bytes[1..]);
      HexByteDigits(bytes[0]);
      var h := Hex(bytes);
      assert h == HexByte(bytes[0]) + Hex(bytes[1..]);
      forall i | 0 <= i < |h| ensures IsLowerHexDigit(h[i]) {
        if i >= 2 { assert h[i] == Hex(bytes[1..])[i - 2]; }
      }
    }
  }

  /** The preview makes an object URL exactly for blobs that start with one of
      the four image signatures (JPEG, PNG, GIF, WebP). */
  lemma ImageIffImageSignature(blob: seq<byte>)
    requires |blob| > 0
    ensures CreatesObjectUrl(Detect(Some(blob))) <==> exists k :: 0 <= k < 4 && IsPrefix(Table[k].0, Head(blob))
  {
    DetectAgreesWithTable(blob);
    var head := Head(blob);
    if k :| 0 <= k < |Table| && IsPrefix(Table[k].0, head) {
      MatchDecides(head, k);
    } else {
      NoMatchUnknown(head, 0);
    }
  }
}
