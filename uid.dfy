/** Client-side document ids (src/utils/uid.ts): twenty characters drawn from a
    62-character alphabet, one per random byte. */
module Uid {

  newtype Byte = x: int | 0 <= x < 256

  /** The characters allowed in document ids. */
  const CHARS: string := "ABCDEFGHIJKLMNOPQRSTUVWXYZabcdefghijklmnopqrstuvwxyz0123456789"

  const AUTO_ID_LENGTH: nat := 20

  /** `generateFirestoreId()` on its `crypto.getRandomValues` branch, given the twenty
      bytes that fill the `Uint8Array`: character i is `chars[bytes[i] % 62]`. */
  method GenerateFirestoreId(randomBytes: seq<Byte>) returns (autoId: string)
    requires |randomBytes| == AUTO_ID_LENGTH
    ensures |autoId| == AUTO_ID_LENGTH
    ensures forall i :: 0 <= i < |autoId| ==> autoId[i] == CHARS[randomBytes[i] as int % |CHARS|]
    ensures forall i :: 0 <= i < |autoId| ==> autoId[i] in CHARS
  {
    autoId := "";
    var i := 0;
    while i < AUTO_ID_LENGTH
      invariant 0 <= i <= AUTO_ID_LENGTH
      invariant |autoId| == i
      invariant forall k :: 0 <= k < i ==> autoId[k] == CHARS[randomBytes[k] as int % |CHARS|]
    {
      autoId := autoId + [CHARS[randomBytes[i] as int % |CHARS|]];
      i := i + 1;
    }
  }
}
