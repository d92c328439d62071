/** Values of the six active joints, and finding a joint in a trajectory's list of names. */
module JointNames {

  /** One value for each of the six active joints. */
  type Six = s: seq<real> | |s| == 6 witness [0.0, 0.0, 0.0, 0.0, 0.0, 0.0]

  /** The first index of the name, or the length of the list. */
  function IndexOf(names: seq<string>, name: string): (i: nat)
    ensures i <= |names|
    ensures i < |names| <==> name in names
    ensures i < |names| ==> names[i] == name
  {
    if names == [] || names[0] == name then 0 else 1 + IndexOf(names[1..], name)
  }

  method FindJoint(names: seq<string>, name: string) returns (index: nat)
    ensures index == IndexOf(names, name)
  {
    index := 0;
    while index < |names| && names[index] != name
      invariant index <= |names| && name !in names[..index]
      invariant IndexOf(names, name) == index + IndexOf(names[index..], name)
    {
      assert names[index..][1..] == names[index + 1..];
      index := index + 1;
    }
  }
}
