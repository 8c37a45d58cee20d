/** Vocabulary shared by the whole model: bytes, task ids, lease tokens, content digests. */
module Basics {
  newtype byte = x: int | 0 <= x < 256

  // Go and Lua strings are byte strings; where the code inspects their bytes the model uses Bytes.
  type Bytes = seq<byte>
  type Id = string
  type Token = string

  datatype Option<+T> = None | Some(value: T) {
    function GetOr(default: T): T {
      if Some? then value else default
    }
  }

  // SHA-256 idealised as an injective constructor: equal digests mean equal contents.
  datatype Digest = Digest(content: Bytes)

  predicate IdStart(c: char) {
    'A' <= c <= 'Z' || 'a' <= c <= 'z' || '0' <= c <= '9'
  }

  predicate IdRest(c: char) {
    IdStart(c) || c == '.' || c == '_' || c == ':' || c == '-'
  }

  predicate ValidId(id: Id) {
    1 <= |id| <= 128 && IdStart(id[0]) && forall i :: 1 <= i < |id| ==> IdRest(id[i])
  }

  ghost predicate NoDup<T>(s: seq<T>) {
    forall i, j :: 0 <= i < j < |s| ==> s[i] != s[j]
  }

  function Min(a: int, b: int): int {
    if a < b then a else b
  }
}
