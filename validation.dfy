/** The binary-signature check of `utils/validation.ts`. */
module Validation {
  import opened Wrappers
  import opened Strings

  newtype byte = x: int | 0 <= x < 256

  /** Only one error is ever reported: `UNSUPPORTED_BIN_FORMAT`. */
  datatype BinError = UnsupportedBinFormat

  /** How many leading bytes the check reads. */
  const HeaderSize: nat := 20

  /** ASCII "CADBIN". */
  const CadBin: seq<byte> := [0x43, 0x41, 0x44, 0x42, 0x49, 0x4E]
  /** ASCII "DXFBIN". */
  const DxfBin: seq<byte> := [0x44, 0x58, 0x46, 0x42, 0x49, 0x4E]

  /** `file.slice(0, 20)`: at most the first 20 bytes. */
  function Header(content: seq<byte>): (h: seq<byte>)
    ensures |h| == if |content| < HeaderSize then |content| else HeaderSize
    ensures h <= content
  {
    if |content| < HeaderSize then content else content[..HeaderSize]
  }

  /** A known signature occurs at offset `i` of the header. */
  ghost predicate SignatureAt(content: seq<byte>, i: int) {
    OccursAt(Header(content), CadBin, i) || OccursAt(Header(content), DxfBin, i)
  }

  /**
   * `validateBinFile`: passes exactly when "CADBIN" or "DXFBIN" occurs at
   * some offset that fits inside the first 20 bytes; fails otherwise.
   */
  function ValidateBinFile(content: seq<byte>): (r: Outcome<BinError>)
    ensures r.Pass? <==> exists i :: SignatureAt(content, i)
    ensures r.Pass? ==> exists i :: 0 <= i <= HeaderSize - 6 && SignatureAt(content, i)
    ensures r.Fail? ==> r.error == UnsupportedBinFormat
  {
    var header := Header(content);
    HeaderSearch(content);
    // `knownSignatures.some(sig => text.includes(sig))`
    if Contains(header, CadBin) || Contains(header, DxfBin) then Pass
    else Fail(UnsupportedBinFormat)
  }

  /** The substring search on the header finds exactly the signature offsets. */
  lemma HeaderSearch(content: seq<byte>)
    ensures Contains(Header(content), CadBin) || Contains(Header(content), DxfBin)
        <==> exists i :: SignatureAt(content, i)
    ensures (exists i :: SignatureAt(content, i)) ==> exists i :: 0 <= i <= HeaderSize - 6 && SignatureAt(content, i)
  {
    var h := Header(content);
    ContainsIff(h, CadBin);
    ContainsIff(h, DxfBin);
    if i :| OccursAt(h, CadBin, i) {
      assert SignatureAt(content, i);
    }
    if i :| OccursAt(h, DxfBin, i) {
      assert SignatureAt(content, i);
    }
  }

  /** Files shorter than a signature are always rejected. */
  lemma ShortFileRejected(content: seq<byte>)
    requires |content| < 6
    ensures ValidateBinFile(content) == Fail(UnsupportedBinFormat)
  {
  }

  /** Bytes after the first 20 never change the verdict. */
  lemma OnlyHeaderMatters(a: seq<byte>, b: seq<byte>)
    requires Header(a) == Header(b)
    ensures ValidateBinFile(a) == ValidateBinFile(b)
  {
  }

  /** Appending bytes to a file of at least 20 bytes never changes the verdict. */
  lemma TailIgnored(content: seq<byte>, tail: seq<byte>)
    requires |content| >= HeaderSize
    ensures ValidateBinFile(content + tail) == ValidateBinFile(content)
  {
    assert Header(content + tail) == Header(content);
    OnlyHeaderMatters(content + tail, content);
  }

  /** `n` zero bytes followed by "CADBIN". */
  function PaddedCadBin(n: nat): (s: seq<byte>)
    ensures |s| == n + 6
    ensures s[n..] == CadBin
    ensures forall i :: 0 <= i < n ==> s[i] == 0
  {
    seq(n, _ => 0 as byte) + CadBin
  }

  /** "CADBIN" at offset 14 ends at byte 20 and is found (not only at offset 0). */
  lemma SignatureAtOffset14Accepted()
    ensures ValidateBinFile(PaddedCadBin(14)).Pass?
  {
    var s := PaddedCadBin(14);
    assert Header(s) == s;
    assert OccursAt(Header(s), CadBin, 14);
    assert SignatureAt(s, 14);
  }

  /** "CADBIN" at offset 15 crosses byte 20 and is not found. */
  lemma SignatureAtOffset15Rejected()
    ensures ValidateBinFile(PaddedCadBin(15)).Fail?
  {
    var s := PaddedCadBin(15);
    var h := Header(s);
    assert |h| == 20 && h == s[..20];
    assert forall i :: 0 <= i < 15 ==> h[i] == 0;
    forall i | 0 <= i
      ensures !OccursAt(h, CadBin, i) && !OccursAt(h, DxfBin, i)
    {
      if i + 6 <= 20 {
        assert h[i..i + 6][0] == h[i] == 0;
      }
    }
  }
}
