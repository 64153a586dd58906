/** The AES cipher of aes.c under the modes of cipher.c. */
module AesModes {
  import opened BlockModes
  import opened Aes

  /** cia_encrypt and cia_decrypt as block functions. */
  ghost function Encryptor(key: seq<bv32>): Block -> Block
    requires |key| > 0
  {
    (x: Block) => if |x| == 16 then EncryptBlock(key, x) else x
  }

  ghost function Decryptor(key: seq<bv32>): Block -> Block
    requires |key| > 0
  {
    (x: Block) => if |x| == 16 then DecryptBlock(key, x) else x
  }

  lemma AesUndoes(key: seq<bv32>, mode: Mode, mode': Mode)
    requires |key| > 0 && (mode, mode') in {(Ecb, Ecb), (CbcEncrypt, CbcDecrypt)}
    ensures Undoes(mode, Encryptor(key), mode', Decryptor(key), 16)
  {
    hide EncryptBlock, DecryptBlock;
    forall x: Block | |x| == 16
      ensures Decryptor(key)(Encryptor(key)(x)) == x
    {
      AesRoundTrip(key, x);
    }
  }

  /** A message of whole blocks encrypted with AES in ECB or CBC mode is recovered by decryption, for every key, every
      initialisation vector and every message. */
  lemma AesMessageRoundTrip(key: seq<bv32>, mode: Mode, mode': Mode, iv: Block, message: seq<bv8>)
    requires |key| > 0 && (mode, mode') in {(Ecb, Ecb), (CbcEncrypt, CbcDecrypt)}
    requires |iv| == 16 && |message| % 16 == 0
    ensures BlockFn(Encryptor(key), 16) && BlockFn(Decryptor(key), 16)
    ensures FlatOut(mode', Decryptor(key), iv, FlatOut(mode, Encryptor(key), iv, message)) == message
  {
    hide FlatOut, Encryptor, Decryptor;
    AesUndoes(key, mode, mode');
    FlatRoundTrip(mode, Encryptor(key), mode', Decryptor(key), iv, message);
  }
}
