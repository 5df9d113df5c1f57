/** The query string as an ordered list of key/value pairs (`URLSearchParams`). */
module UrlParams {
  import opened Wrappers

  datatype Param = Param(key: string, value: string)

  /** `searchParams.get(key)`: the value of the FIRST pair with that key, or null. */
  function Get(params: seq<Param>, key: string): (r: Option<string>)
    ensures r.None? <==> forall i :: 0 <= i < |params| ==> params[i].key != key
    ensures r.Some? ==> exists i :: 0 <= i < |params| && params[i] == Param(key, r.value)
                                    && forall k :: 0 <= k < i ==> params[k].key != key
  {
    if params == [] then None
    else if params[0].key == key then Some(params[0].value)
    else
      var r := Get(params[1..], key);
      assert r.Some? ==> exists i :: 0 <= i < |params| && params[i] == Param(key, r.value)
                                    && forall k :: 0 <= k < i ==> params[k].key != key by {
        if r.Some? {
          var i :| 0 <= i < |params[1..]| && params[1..][i] == Param(key, r.value)
                   && forall k :: 0 <= k < i ==> params[1..][k].key != key;
          assert params[i + 1] == Param(key, r.value);
          assert forall k :: 0 <= k < i + 1 ==> params[k].key != key by {
            forall k | 0 <= k < i + 1 ensures params[k].key != key {
              if k > 0 { assert params[k] == params[1..][k - 1]; }
            }
          }
        }
      }
      r
  }

  /** JavaScript truthiness of an optional string: present and non-empty. */
  predicate Truthy(v: Option<string>)
  {
    v.Some? && v.value != ""
  }

  /** `v || undefined`: a missing value and the empty string both become absent. */
  function OrUndefined(v: Option<string>): (r: Option<string>)
    ensures r.None? || Truthy(r)
    ensures Truthy(v) ==> r == v
    ensures !Truthy(v) ==> r.None?
  {
    if Truthy(v) then v else None
  }
}
