/**
 * Descriptors stored back to back without padding, as the members of a
 * packed composite struct are, and the walk by which a host splits such a
 * descriptor set again (section 9.4.3 of USB 2.0: a configuration request
 * returns the configuration descriptor followed by all its interface and
 * class-specific descriptors).
 */
module DescriptorSet {
  import opened UsbTypes

  /** The bytes of several descriptors stored one after another. */
  function Concat(parts: seq<Bytes>): Bytes
  {
    if parts == [] then [] else parts[0] + Concat(parts[1..])
  }

  /**
   * A descriptor that announces its own size: at least the two header bytes,
   * and its first byte, bLength, equal to its length (section 9.5 of USB 2.0).
   */
  predicate SelfDelimiting(d: Bytes)
  {
    2 <= |d| < 0x100 && d[0] as int == |d|
  }

  /** How a host splits a descriptor set: each descriptor starts with its bLength. */
  function Walk(b: Bytes): Option<seq<Bytes>>
    decreases |b|
  {
    if b == [] then Some([])
    else if b[0] < 2 || |b| < b[0] as int then None
    else
      match Walk(b[b[0]..])
      case None => None
      case Some(rest) => Some([b[..b[0]]] + rest)
  }

  /** The sum of the members' sizes. */
  function Sizes(parts: seq<Bytes>): nat
  {
    if parts == [] then 0 else |parts[0]| + Sizes(parts[1..])
  }

  /** Without padding, the size of a descriptor set is the sum of its members' sizes. */
  lemma {:induction false} ConcatSize(parts: seq<Bytes>)
    ensures |Concat(parts)| == Sizes(parts)
  {
    if parts != [] {
      ConcatSize(parts[1..]);
    }
  }

  /** Members that are all `n` bytes long add up to `n` times their number. */
  lemma {:induction false} SizesUniform(parts: seq<Bytes>, n: nat)
    requires forall i :: 0 <= i < |parts| ==> |parts[i]| == n
    ensures Sizes(parts) == n * |parts|
  {
    if parts != [] {
      SizesUniform(parts[1..], n);
    }
  }

  /** The first member of a descriptor set is found at its start. */
  lemma ConcatPrefix(parts: seq<Bytes>)
    requires parts != []
    ensures |Concat(parts)| >= |parts[0]|
    ensures Concat(parts)[..|parts[0]|] == parts[0]
  {
  }

  /** Descriptors stored back to back are recovered one by one by the host's walk. */
  lemma {:induction false} WalkConcat(parts: seq<Bytes>)
    requires forall i :: 0 <= i < |parts| ==> SelfDelimiting(parts[i])
    ensures Walk(Concat(parts)) == Some(parts)
  {
    if parts != [] {
      var b := Concat(parts);
      var n := parts[0][0];
      WalkConcat(parts[1..]);
      assert b[0] == n;
      assert b[..n] == parts[0];
      assert b[n..] == Concat(parts[1..]);
      assert [parts[0]] + parts[1..] == parts;
    }
  }
}
