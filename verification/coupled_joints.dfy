/** The planner's joint 7 is coupled: it is physical joint 2 plus joint 3 plus an offset. */
module CoupledJoints {
  import opened Wrappers
  import opened JointNames

  function Degrees(radians: real): real {
    radians * (180.0 / 3.14159265358979323846)
  }

  function Radians(degrees: real): real {
    degrees * 3.14159265358979323846 / 180.0
  }

  datatype Coupling = Coupling(offset: real, joint3Min: real, joint3Max: real, joint7Min: real, joint7Max: real)
  {
    predicate Allows(joint3: real, joint7: real) {
      joint3Min <= joint3 <= joint3Max && joint7Min <= joint7 <= joint7Max
    }

    function Joint3(joint2: real, joint7: real): real {
      joint7 - joint2 - offset
    }
  }

  /** planning_joint_target: the planner's joints for a node's target in degrees; None for its exceptions. */
  function PlanningJointTarget(c: Coupling, target: Six): Option<Six> {
    var joint2, joint3 := Radians(target[1]), Radians(target[2]);
    var joint7 := joint2 + joint3 + c.offset;
    if !c.Allows(joint3, joint7) then None
    else Some([Radians(target[0]), joint2, joint7, Radians(target[3]), Radians(target[4]), Radians(target[5])])
  }
}
