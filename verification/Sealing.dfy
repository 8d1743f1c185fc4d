/** Sealed files: a 12-byte IV, a 16-byte GCM tag and the ciphertext. */
module Sealing {
  import opened Base

  const IV_SIZE: nat := 12
  const TAG_SIZE: nat := 16
  const HEADER_SIZE: nat := IV_SIZE + TAG_SIZE

  type Iv = iv: Bytes | |iv| == IV_SIZE witness seq(12, i => 0)

  // AES-256-GCM under the store's key, as three uninterpreted functions.
  datatype Cipher = Cipher(
    encrypt: (Bytes, Bytes) -> Bytes,
    tagOf: (Bytes, Bytes) -> Bytes,
    decrypt: (Bytes, Bytes, Bytes) -> Option<Bytes>)
  {
    // Decryption inverts encryption.
    ghost predicate Valid() {
      forall iv: Bytes, data: Bytes {:trigger encrypt(iv, data)} {:trigger tagOf(iv, data)} :: |iv| == IV_SIZE ==>
        |tagOf(iv, data)| == TAG_SIZE && decrypt(encrypt(iv, data), tagOf(iv, data), iv) == Some(data)
    }

    function Seal(iv: Iv, data: Bytes): Bytes {
      iv + tagOf(iv, data) + encrypt(iv, data)
    }

    // None is a file too short for its header, or one that fails authentication.
    function Open(file: Bytes): Option<Bytes> {
      if |file| < HEADER_SIZE then None
      else decrypt(file[HEADER_SIZE..], file[IV_SIZE..HEADER_SIZE], file[..IV_SIZE])
    }

    // A sealed file opens to its plaintext: first the IV, then the tag, then the ciphertext.
    lemma OpenSeal(iv: Iv, data: Bytes)
      requires Valid()
      ensures Open(Seal(iv, data)) == Some(data)
      ensures var file := Seal(iv, data);
              && |file| == 28 + |encrypt(iv, data)|
              && file[..12] == iv && file[12..28] == tagOf(iv, data) && file[28..] == encrypt(iv, data)
    {
      var file := Seal(iv, data);
      assert |tagOf(iv, data)| == TAG_SIZE;
      assert file[..IV_SIZE] == iv;
      assert file[IV_SIZE..HEADER_SIZE] == tagOf(iv, data);
      assert file[HEADER_SIZE..] == encrypt(iv, data);
    }
  }
}
