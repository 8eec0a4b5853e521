/**
 * gRPC call metadata (`metadata.MD`): a map from a (lower-case) key to the
 * ordered list of values sent under that key.
 */
module Metadata {

  type MD = map<string, seq<string>>

  /** The values under `k`, read as Go reads `md[k]`: a missing key is the empty slice. */
  function Values(md: MD, k: string): (vs: seq<string>)
    ensures k in md ==> vs == md[k]
    ensures k !in md ==> vs == []
  {
    if k in md then md[k] else []
  }

  /**
   * `md.Append(k, vals...)` on a key that is already lower case: no values is
   * a no-op; otherwise the values go after those the key already holds and
   * every other key keeps its values.
   */
  function Append(md: MD, k: string, vals: seq<string>): (r: MD)
    ensures vals == [] ==> r == md
    ensures vals != [] ==> r.Keys == md.Keys + {k}
    ensures forall j :: j in md && j != k ==> j in r && r[j] == md[j]
    ensures vals != [] ==> |r[k]| == |Values(md, k)| + |vals|
    ensures vals != [] ==> r[k][..|Values(md, k)|] == Values(md, k)
    ensures vals != [] ==> r[k][|Values(md, k)|..] == vals
  {
    if |vals| == 0 then md else md[k := Values(md, k) + vals]
  }

  /** `metadata.Pairs(k, v)` with one lower-case key: exactly one key holding exactly one value. */
  function Pairs(k: string, v: string): (r: MD)
    ensures r.Keys == {k}
    ensures r[k] == [v]
  {
    map[k := [v]]
  }
}
