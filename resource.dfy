/**
 * Resource names (resource.go).  `ResourceName` is Go's named string type;
 * it is a one-field datatype here so that the conversions between plain
 * strings and names are explicit, as they are in the source.
 */
module Resources {

  datatype ResourceName = ResourceName(value: string) {

    /** `ResourceName.String`: converting back gives the same name. */
    function String(): (s: string)
      ensures ResourceName(s) == this
    {
      value
    }
  }

  /** The specification of `ResourceNames`: element `i` names string `i`. */
  function AsNames(strs: seq<string>): (names: seq<ResourceName>)
    ensures |names| == |strs|
  {
    seq(|strs|, i requires 0 <= i < |strs| => ResourceName(strs[i]))
  }

  /**
   * `ResourceNames`: preallocates a buffer of the input's length and fills it
   * index by index.  The result keeps the input's length and order.
   */
  method ResourceNames(n: seq<string>) returns (names: seq<ResourceName>)
    ensures |names| == |n|
    ensures forall i :: 0 <= i < |n| ==> names[i].String() == n[i]
    ensures names == AsNames(n)
  {
    var buf := new ResourceName[|n|];
    var i := 0;
    while i < |n|
      invariant 0 <= i <= |n|
      invariant forall j :: 0 <= j < i ==> buf[j] == ResourceName(n[j])
    {
      buf[i] := ResourceName(n[i]);
      i := i + 1;
    }
    names := buf[..];
  }
}
