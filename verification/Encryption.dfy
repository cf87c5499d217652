/** AES-256-GCM as an abstract authenticated cipher, and the nonce-prefixed box
    around it. The key is fixed in a `Cipher` value; nonces are inputs. */
module Encryption {
  import opened Bytes
  import opened Outcomes

  const NONCE_LENGTH := 12
  const TAG_LENGTH := 16
  // Section 5.1 of RFC 5116: the longest plaintext the algorithm must accept.
  const MAX_PLAINTEXT := 0x10_0000_0000 - 31

  type Nonce = n: seq<byte> | |n| == NONCE_LENGTH witness [0, 0, 0, 0, 0, 0, 0, 0, 0, 0, 0, 0]

  datatype RawCipher = RawCipher(
    seal: (Nonce, seq<byte>) -> Option<seq<byte>>,
    open: (Nonce, seq<byte>) -> Option<seq<byte>>)

  /** Sections 5.1 and 5.2 of RFC 5116: sealing adds a 16-byte tag, and opening accepts exactly
      what sealing under the same nonce produces. */
  ghost predicate Lawful(c: RawCipher) {
    && (forall n: Nonce, p: seq<byte> :: |p| <= MAX_PLAINTEXT ==> c.seal(n, p).Some?)
    && (forall n: Nonce, p: seq<byte> ::
          c.seal(n, p).Some? ==>
            |c.seal(n, p).value| == |p| + TAG_LENGTH && c.open(n, c.seal(n, p).value) == Some(p))
    && (forall n: Nonce, b: seq<byte> ::
          c.open(n, b).Some? ==> c.seal(n, c.open(n, b).value) == Some(b))
  }

  type Cipher = c: RawCipher | Lawful(c) ghost witness ToyCipher()

  function ToyTag(n: Nonce): (tag: seq<byte>)
    ensures |tag| == TAG_LENGTH
  {
    n + [0, 0, 0, 0]
  }

  /** A cipher without secrecy, so that the three laws are seen to be consistent. */
  function ToyCipher(): (c: RawCipher)
    ensures Lawful(c)
  {
    var c := RawCipher(
               (n: Nonce, p: seq<byte>) => Some(p + ToyTag(n)),
               (n: Nonce, b: seq<byte>) =>
                 if |b| >= TAG_LENGTH && b[|b| - TAG_LENGTH..] == ToyTag(n)
                 then Some(b[..|b| - TAG_LENGTH]) else None);
    assert forall n: Nonce, b: seq<byte> :: c.open(n, b).Some? ==> b[..|b| - TAG_LENGTH] + ToyTag(n) == b;
    c
  }

  function Sealed(c: Cipher, nonce: Nonce, data: seq<byte>): Outcome<seq<byte>> {
    match c.seal(nonce, data)
    case None => Err(VpnError.Encryption)
    case Some(ciphertext) => Ok(nonce + ciphertext)
  }

  function Opened(c: Cipher, data: seq<byte>): Outcome<seq<byte>> {
    if |data| < NONCE_LENGTH then Err(GenericError)
    else
      match c.open(data[..NONCE_LENGTH], data[NONCE_LENGTH..])
      case None => Err(VpnError.Encryption)
      case Some(plaintext) => Ok(plaintext)
  }

  lemma SealedOpens(c: Cipher, nonce: Nonce, data: seq<byte>)
    requires Sealed(c, nonce, data).Ok?
    ensures Opened(c, Sealed(c, nonce, data).value) == Ok(data)
    ensures |Sealed(c, nonce, data).value| == |data| + NONCE_LENGTH + TAG_LENGTH
  {
  }

  /** Only boxes that sealing makes are opened: a box is its own nonce and plaintext. */
  lemma OpenedSeals(c: Cipher, box: seq<byte>)
    requires Opened(c, box).Ok?
    ensures |box| == |Opened(c, box).value| + NONCE_LENGTH + TAG_LENGTH
    ensures Sealed(c, box[..NONCE_LENGTH], Opened(c, box).value) == Ok(box)
  {
    assert box[..NONCE_LENGTH] + box[NONCE_LENGTH..] == box;
  }

  method Encrypt(c: Cipher, nonceBytes: Nonce, data: seq<byte>) returns (r: Outcome<seq<byte>>)
    ensures r == Sealed(c, nonceBytes, data)
    ensures r.Ok? ==> Opened(c, r.value) == Ok(data) && |r.value| == |data| + 28 && r.value[..12] == nonceBytes
    ensures |data| <= MAX_PLAINTEXT ==> r.Ok?
  {
    var sealedData := c.seal(nonceBytes, data);
    if sealedData.None? {
      return Err(VpnError.Encryption);
    }
    var result: seq<byte> := [];
    result := result + nonceBytes;
    result := result + sealedData.value;
    assert result == nonceBytes + sealedData.value;
    r := Ok(result);
    SealedOpens(c, nonceBytes, data);
  }

  method Decrypt(c: Cipher, data: seq<byte>) returns (r: Outcome<seq<byte>>)
    ensures r == Opened(c, data)
    ensures r.Ok? ==> |data| >= 28 && Sealed(c, data[..12], r.value) == Ok(data)
    ensures !r.Ok? ==> r == Err(if |data| < 12 then GenericError else VpnError.Encryption)
  {
    if |data| < NONCE_LENGTH {
      return Err(GenericError);
    }
    var nonce, ciphertext := data[..NONCE_LENGTH], data[NONCE_LENGTH..];
    match c.open(nonce, ciphertext) {
      case None => return Err(VpnError.Encryption);
      case Some(plaintext) =>
        r := Ok(plaintext);
        OpenedSeals(c, data);
    }
  }
}
