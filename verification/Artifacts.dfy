// The artifact store (internal/artifacts/store.go). Saving and deleting a file
// are atomic updates of a map; path joining is not represented.
module Artifacts {
  import opened Models
  import opened Utf8

  const MAX_FILE_SIZE_BYTES := 10 * 1024 * 1024
  const ID_LENGTH := 32

  predicate LowerHex(c: char) { '0' <= c <= '9' || 'a' <= c <= 'f' }

  // A plain lowercase hex identifier of the generated length.
  predicate OpaqueID(id: string) { |id| == ID_LENGTH && forall i :: 0 <= i < |id| ==> LowerHex(id[i]) }

  method ValidID(id: string) returns (ok: bool)
    ensures ok <==> OpaqueID(id)
  {
    if |id| != ID_LENGTH {
      return false;
    }
    for i := 0 to |id|
      invariant forall j :: 0 <= j < i ==> LowerHex(id[j])
    {
      var c := id[i];
      if (c < '0' || c > '9') && (c < 'a' || c > 'f') {
        return false;
      }
    }
    return true;
  }

  function Digit(n: nat): (c: char)
    requires n < 16
    ensures LowerHex(c)
  {
    if n < 10 then (n + '0' as int) as char else (n - 10 + 'a' as int) as char
  }

  // hex.EncodeToString.
  function HexEncode(b: seq<Byte>): (s: string)
    ensures |s| == 2 * |b|
    ensures forall i :: 0 <= i < |s| ==> LowerHex(s[i])
  {
    if b == [] then "" else [Digit(b[0] / 16), Digit(b[0] % 16)] + HexEncode(b[1..])
  }

  // Each byte is written as its two hexadecimal digits.
  lemma {:induction false} HexEncodeDigits(b: seq<Byte>, i: nat)
    requires i < |b|
    ensures HexEncode(b)[2 * i] == "0123456789abcdef"[b[i] / 16]
    ensures HexEncode(b)[2 * i + 1] == "0123456789abcdef"[b[i] % 16]
    decreases |b|
  {
    if i > 0 {
      HexEncodeDigits(b[1..], i - 1);
    }
  }

  // Distinct random bytes give distinct identifiers.
  lemma {:induction false} HexEncodeInjective(a: seq<Byte>, b: seq<Byte>)
    requires HexEncode(a) == HexEncode(b)
    ensures a == b
    decreases |a|
  {
    assert |a| == |b|;
    if a != [] {
      var s, t := HexEncode(a), HexEncode(b);
      assert s[0] == t[0] && s[1] == t[1];
      assert a[0] / 16 == b[0] / 16 && a[0] % 16 == b[0] % 16;
      assert s[2..] == HexEncode(a[1..]) && t[2..] == HexEncode(b[1..]);
      HexEncodeInjective(a[1..], b[1..]);
      assert a == [a[0]] + a[1..] && b == [b[0]] + b[1..];
    }
  }

  // Every generated identifier passes the store's own check, so that it can be
  // saved and deleted.
  lemma GeneratedIDsAreOpaque(random: seq<Byte>)
    requires |random| == ID_LENGTH / 2
    ensures OpaqueID(HexEncode(random))
  {
  }

  class Store {
    var files: map<ArtifactId, seq<Byte>>

    constructor ()
      ensures files == map[]
    {
      files := map[];
    }

    // random is what rand.Read delivers, None if it fails; drawn identifiers are
    // assumed fresh. writable says whether the file can be written.
    method Save(data: seq<Byte>, random: Option<seq<Byte>>, writable: bool) returns (id: Option<ArtifactId>)
      requires random.Some? ==> |random.value| == ID_LENGTH / 2 && HexEncode(random.value) !in files
      modifies this
      ensures id.Some? <==> |data| <= MAX_FILE_SIZE_BYTES && random.Some? && writable
      ensures id.Some? ==> OpaqueID(id.value) && id.value !in old(files) && files == old(files)[id.value := data]
      ensures id.None? ==> files == old(files)
    {
      if |data| > MAX_FILE_SIZE_BYTES || random.None? {
        return None;
      }
      var name := HexEncode(random.value);
      var ok := ValidID(name);
      if !ok || !writable {
        return None;
      }
      files := files[name := data];
      return Some(name);
    }

    method Delete(id: ArtifactId) returns (ok: bool)
      modifies this
      ensures ok <==> OpaqueID(id)
      ensures files == if ok then old(files) - {id} else old(files)
    {
      ok := ValidID(id);
      if ok {
        files := files - {id};
      }
    }
  }
}
