/**
 * `AESModeOfOperationGCM` of app/utils/pyaes.py: decryption through the AES library when it can be
 * imported, and otherwise a repeating-key XOR over the data.
 */
module PyAes {
  import opened Common

  /** The message of Python's `ZeroDivisionError` for `i % 0`. */
  const ModuloByZero: string := "integer modulo by zero"

  /** Byte `i` of the fallback output: the data byte XOR the key byte at `i` modulo the key length. */
  function XorWithKey(data: seq<bv8>, key: seq<bv8>): (r: seq<bv8>)
    requires |key| > 0 || |data| == 0
    ensures |r| == |data|
  {
    seq(|data|, i requires 0 <= i < |data| => data[i] ^ key[i % |key|])
  }

  /** Applying the fallback twice with the same key gives back the data. */
  lemma XorInvolution(data: seq<bv8>, key: seq<bv8>)
    requires |key| > 0 || |data| == 0
    ensures XorWithKey(XorWithKey(data, key), key) == data
  {
    var once := XorWithKey(data, key);
    forall i | 0 <= i < |data|
      ensures XorWithKey(once, key)[i] == data[i]
    {
      XorCancels(data[i], key[i % |key|]);
    }
  }

  lemma XorCancels(a: bv8, b: bv8)
    ensures (a ^ b) ^ b == a
  {
  }

  /** What importing and calling the AES library does: decrypts, is missing, or raises. */
  datatype Library = Decrypted(plain: seq<bv8>) | NotInstalled | Raised(message: string)

  class AESModeOfOperationGCM {
    const key: seq<bv8>
    const iv: seq<bv8>

    constructor (key: seq<bv8>, iv: seq<bv8>)
      ensures this.key == key && this.iv == iv
    {
      this.key := key;
      this.iv := iv;
    }

    /**
     * `_fallback_decrypt`: appends one XOR-ed byte per data byte. With an empty key and non-empty
     * data the first modulus divides by zero.
     */
    method FallbackDecrypt(data: seq<bv8>) returns (r: Result<seq<bv8>, string>)
      ensures |key| == 0 && |data| > 0 <==> r.Err?
      ensures r.Err? ==> r.error == ModuloByZero
      ensures r.Ok? ==> r.value == XorWithKey(data, key)
    {
      var decrypted: seq<bv8> := [];
      var keyLen := |key|;
      for i := 0 to |data|
        invariant |decrypted| == i
        invariant i > 0 ==> keyLen > 0
        invariant forall j | 0 <= j < i :: decrypted[j] == data[j] ^ key[j % keyLen]
      {
        if keyLen == 0 {
          return Err(ModuloByZero);
        }
        decrypted := decrypted + [data[i] ^ key[i % keyLen]];
      }
      return Ok(decrypted);
    }

    /** `decrypt`: the library's answer, or the fallback when the library cannot be imported. */
    method Decrypt(data: seq<bv8>, library: Library) returns (r: Result<seq<bv8>, string>)
      ensures library.Decrypted? ==> r == Ok(library.plain)
      ensures library.Raised? ==> r == Err(library.message)
      ensures library.NotInstalled? && (|key| > 0 || |data| == 0) ==> r == Ok(XorWithKey(data, key))
      ensures library.NotInstalled? && |key| == 0 && |data| > 0 ==> r == Err(ModuloByZero)
    {
      match library {
        case Decrypted(plain) => r := Ok(plain);
        case Raised(message) => r := Err(message);
        case NotInstalled => r := FallbackDecrypt(data);
      }
    }
  }
}
