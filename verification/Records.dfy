/** Log records as byte strings, and their truncation to a maximum length. */
module Records {
  type Byte = b: int | 0 <= b < 256 witness 0
  type Bytes = seq<Byte>

  /** "[application log record truncated]" between line feeds. */
  const MARKER: Bytes := [
    10, 91, 97, 112, 112, 108, 105, 99, 97, 116, 105, 111, 110, 32, 108, 111, 103, 32,
    114, 101, 99, 111, 114, 100, 32, 116, 114, 117, 110, 99, 97, 116, 101, 100, 93, 10
  ]

  /** truncateRecord. */
  function TruncateRecord(p: Bytes, maxBytes: nat): (r: Bytes)
    ensures |r| == if |p| <= maxBytes then |p| else maxBytes
    ensures |p| <= maxBytes ==> r == p
    ensures |p| > maxBytes >= |MARKER| ==> r[..maxBytes - |MARKER|] <= p && r[maxBytes - |MARKER|..] == MARKER
    ensures |p| > maxBytes && maxBytes < |MARKER| ==> r <= MARKER
  {
    if |p| <= maxBytes then p
    else if maxBytes <= |MARKER| then MARKER[..maxBytes]
    else p[..maxBytes - |MARKER|] + MARKER
  }

  function Total(rs: seq<Bytes>): nat {
    if rs == [] then 0 else |rs[0]| + Total(rs[1..])
  }

  lemma {:induction false} TotalAppend(a: seq<Bytes>, b: seq<Bytes>)
    ensures Total(a + b) == Total(a) + Total(b)
  {
    if a == [] {
      assert a + b == b;
    } else {
      assert (a + b)[1..] == a[1..] + b;
      TotalAppend(a[1..], b);
    }
  }
}
