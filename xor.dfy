/**
 * Repeating-key XOR, the cipher the mobile app actually uses for its "hybrid"
 * payloads: byte i of the output is data[i] XOR key[i mod |key|].
 */
module RepeatingXor {
  import opened Common

  /** The keystream cipher as a whole-sequence definition. */
  function Xor(data: Bytes, key: Bytes): (r: Bytes)
    requires |key| > 0 || |data| == 0
  {
    seq(|data|, i requires 0 <= i < |data| => data[i] ^ key[i % |key|])
  }

  /**
   * The append loop of the scripts (`out.append(data[i] ^ key[i % len(key)])`).
   * An empty key with non-empty data raises ZeroDivisionError on the first byte.
   */
  method XorBytes(data: Bytes, key: Bytes) returns (r: Outcome<Bytes>)
    ensures r.Err? <==> |key| == 0 && |data| > 0
    ensures r.Ok? ==> |r.value| == |data|
    ensures r.Ok? ==> forall i :: 0 <= i < |data| ==> r.value[i] == data[i] ^ key[i % |key|]
    ensures r.Ok? ==> r.value == Xor(data, key)
  {
    if |data| > 0 && |key| == 0 {
      return Err("integer modulo by zero");
    }
    var out: Bytes := [];
    var i := 0;
    while i < |data|
      invariant 0 <= i <= |data|
      invariant |out| == i
      invariant forall k :: 0 <= k < i ==> out[k] == data[k] ^ key[k % |key|]
    {
      out := out + [data[i] ^ key[i % |key|]];
      i := i + 1;
    }
    return Ok(out);
  }

  /** The fallible form used by the functional parts of the model. */
  function XorDecipher(data: Bytes, key: Bytes): (r: Outcome<Bytes>)
    ensures r.Ok? <==> |key| > 0 || |data| == 0
    ensures r.Ok? ==> r.value == Xor(data, key)
  {
    if |key| == 0 && |data| > 0 then Err("integer modulo by zero") else Ok(Xor(data, key))
  }

  /** XOR with the same key is an involution: deciphering undoes enciphering. */
  lemma XorInvolution(data: Bytes, key: Bytes)
    requires |key| > 0
    ensures |Xor(data, key)| == |data|
    ensures Xor(Xor(data, key), key) == data
  {
    var once := Xor(data, key);
    var twice := Xor(once, key);
    forall i | 0 <= i < |data|
      ensures twice[i] == data[i]
    {
      assert once[i] == data[i] ^ key[i % |key|];
    }
  }
}
