/**
 * The fixed bone topology of the skeleton plot: the list of joint-name pairs
 * that `plot_skeleton` and `plot_skeleton_custom` each define as
 * `skeleton_connections` (utils.py:27-56 and utils.py:125-154, identical).
 */
module Topology {

  /** A bone is the pair of joint names it connects. */
  type Bone = (string, string)

  /** The 28 bones, in the order the bone loop walks them. */
  const Connections: seq<Bone> := [
    ("Head", "Neck"),
    ("Neck", "Chest"),
    ("Chest", "Hips"),
    ("Neck", "LeftShoulder"),
    ("LeftShoulder", "LeftArm"),
    ("LeftArm", "LeftForearm"),
    ("LeftForearm", "LeftHand"),
    ("Chest", "RightShoulder"),
    ("RightShoulder", "RightArm"),
    ("RightArm", "RightForearm"),
    ("RightForearm", "RightHand"),
    ("Hips", "LeftThigh"),
    ("LeftThigh", "LeftLeg"),
    ("LeftLeg", "LeftFoot"),
    ("Hips", "RightThigh"),
    ("RightThigh", "RightLeg"),
    ("RightLeg", "RightFoot"),
    ("RightHand", "RightFinger"),
    ("RightFinger", "RightFingerEnd"),
    ("LeftHand", "LeftFinger"),
    ("LeftFinger", "LeftFingerEnd"),
    ("Head", "HeadEnd"),
    ("RightFoot", "RightHeel"),
    ("RightHeel", "RightToe"),
    ("RightToe", "RightToeEnd"),
    ("LeftFoot", "LeftHeel"),
    ("LeftHeel", "LeftToe"),
    ("LeftToe", "LeftToeEnd")
  ]

  /** The 29 anatomical joint names the topology is built from, each once. */
  const JointList: seq<string> := [
    "Head", "Neck", "Chest", "Hips", "HeadEnd",
    "LeftShoulder", "LeftArm", "LeftForearm", "LeftHand", "LeftFinger", "LeftFingerEnd",
    "RightShoulder", "RightArm", "RightForearm", "RightHand", "RightFinger", "RightFingerEnd",
    "LeftThigh", "LeftLeg", "LeftFoot", "LeftHeel", "LeftToe", "LeftToeEnd",
    "RightThigh", "RightLeg", "RightFoot", "RightHeel", "RightToe", "RightToeEnd"
  ]

  const JointNames: set<string> := set j | j in JointList

  /** The joint names that a list of bones mentions, at either end. */
  function Joints(bones: seq<Bone>): set<string> {
    (set i | 0 <= i < |bones| :: bones[i].0) + (set i | 0 <= i < |bones| :: bones[i].1)
  }

  /** No bone connects a joint to itself. */
  predicate NoSelfBones(bones: seq<Bone>) {
    forall i :: 0 <= i < |bones| ==> bones[i].0 != bones[i].1
  }

  /** No element is listed twice: used for the bones and for the joint names. */
  predicate Distinct<T(==)>(s: seq<T>) {
    forall i, j :: 0 <= i < j < |s| ==> s[i] != s[j]
  }

  /** A list of distinct elements has as many elements as the set of them. */
  lemma {:induction false} DistinctCount<T>(s: seq<T>)
    requires Distinct(s)
    ensures |set x | x in s| == |s|
  {
    if s != [] {
      DistinctCount(s[1..]);
      assert (set x | x in s) == {s[0]} + (set x | x in s[1..]);
    }
  }

  /** Every element at a position in `lo..hi` differs from every element after it. */
  predicate DistinctFrom<T(==)>(s: seq<T>, lo: int, hi: int) {
    forall i, j :: 0 <= lo <= i < hi && i < j < |s| ==> s[i] != s[j]
  }

  /** Two adjacent blocks of checked positions make one block. */
  lemma DistinctFromJoin<T>(s: seq<T>, a: int, b: int, c: int)
    requires 0 <= a <= b <= c
    requires DistinctFrom(s, a, b) && DistinctFrom(s, b, c)
    ensures DistinctFrom(s, a, c)
  {
    forall i, j | a <= i < c && i < j < |s| ensures s[i] != s[j] {
      if i < b {
        assert DistinctFrom(s, a, b);
      } else {
        assert DistinctFrom(s, b, c);
      }
    }
  }

  // The two literal lists are shown duplicate-free a few rows at a time: each
  // row compares one fixed element with every later one.

  lemma ConnectionsRows0to3()
    ensures DistinctFrom(Connections, 0, 3)
  {
    assert forall j :: 1 <= j < 28 ==> Connections[0] != Connections[j];
    assert forall j :: 2 <= j < 28 ==> Connections[1] != Connections[j];
    assert forall j :: 3 <= j < 28 ==> Connections[2] != Connections[j];
  }

  lemma ConnectionsRows3to6()
    ensures DistinctFrom(Connections, 3, 6)
  {
    assert forall j :: 4 <= j < 28 ==> Connections[3] != Connections[j];
    assert forall j :: 5 <= j < 28 ==> Connections[4] != Connections[j];
    assert forall j :: 6 <= j < 28 ==> Connections[5] != Connections[j];
  }

  lemma ConnectionsRows6to9()
    ensures DistinctFrom(Connections, 6, 9)
  {
    assert forall j :: 7 <= j < 28 ==> Connections[6] != Connections[j];
    assert forall j :: 8 <= j < 28 ==> Connections[7] != Connections[j];
    assert forall j :: 9 <= j < 28 ==> Connections[8] != Connections[j];
  }

  lemma ConnectionsRows9to12()
    ensures DistinctFrom(Connections, 9, 12)
  {
    assert forall j :: 10 <= j < 28 ==> Connections[9] != Connections[j];
    assert forall j :: 11 <= j < 28 ==> Connections[10] != Connections[j];
    assert forall j :: 12 <= j < 28 ==> Connections[11] != Connections[j];
  }

  lemma ConnectionsRows12to16()
    ensures DistinctFrom(Connections, 12, 16)
  {
    assert forall j :: 13 <= j < 28 ==> Connections[12] != Connections[j];
    assert forall j :: 14 <= j < 28 ==> Connections[13] != Connections[j];
    assert forall j :: 15 <= j < 28 ==> Connections[14] != Connections[j];
    assert forall j :: 16 <= j < 28 ==> Connections[15] != Connections[j];
  }

  lemma ConnectionsRows16to21()
    ensures DistinctFrom(Connections, 16, 21)
  {
  }

  lemma ConnectionsRows21to28()
    ensures DistinctFrom(Connections, 21, 28)
  {
  }

  /** The bones are 28 distinct pairs, none of them a self-loop. */
  lemma ConnectionsWellFormed()
    ensures |Connections| == 28
    ensures NoSelfBones(Connections)
    ensures Distinct(Connections)
  {
    ConnectionsRows0to3();
    ConnectionsRows3to6();
    ConnectionsRows6to9();
    ConnectionsRows9to12();
    ConnectionsRows12to16();
    ConnectionsRows16to21();
    ConnectionsRows21to28();
    DistinctFromJoin(Connections, 0, 3, 6);
    DistinctFromJoin(Connections, 0, 6, 9);
    DistinctFromJoin(Connections, 0, 9, 12);
    DistinctFromJoin(Connections, 0, 12, 16);
    DistinctFromJoin(Connections, 0, 16, 21);
    DistinctFromJoin(Connections, 0, 21, 28);
  }

  lemma JointListRows0to3()
    ensures DistinctFrom(JointList, 0, 3)
  {
    assert forall j :: 1 <= j < 29 ==> JointList[0] != JointList[j];
    assert forall j :: 2 <= j < 29 ==> JointList[1] != JointList[j];
    assert forall j :: 3 <= j < 29 ==> JointList[2] != JointList[j];
  }

  lemma JointListRows3to6()
    ensures DistinctFrom(JointList, 3, 6)
  {
    assert forall j :: 4 <= j < 29 ==> JointList[3] != JointList[j];
    assert forall j :: 5 <= j < 29 ==> JointList[4] != JointList[j];
    assert forall j :: 6 <= j < 29 ==> JointList[5] != JointList[j];
  }

  lemma JointListRows6to9()
    ensures DistinctFrom(JointList, 6, 9)
  {
    assert forall j :: 7 <= j < 29 ==> JointList[6] != JointList[j];
    assert forall j :: 8 <= j < 29 ==> JointList[7] != JointList[j];
    assert forall j :: 9 <= j < 29 ==> JointList[8] != JointList[j];
  }

  lemma JointListRows9to12()
    ensures DistinctFrom(JointList, 9, 12)
  {
    assert forall j :: 10 <= j < 29 ==> JointList[9] != JointList[j];
    assert forall j :: 11 <= j < 29 ==> JointList[10] != JointList[j];
    assert forall j :: 12 <= j < 29 ==> JointList[11] != JointList[j];
  }

  lemma JointListRows12to14()
    ensures DistinctFrom(JointList, 12, 14)
  {
    assert forall j :: 13 <= j < 29 ==> JointList[12] != JointList[j];
    assert forall j :: 14 <= j < 29 ==> JointList[13] != JointList[j];
  }

  lemma JointListRows14to16()
    ensures DistinctFrom(JointList, 14, 16)
  {
    assert forall j :: 15 <= j < 29 ==> JointList[14] != JointList[j];
    assert forall j :: 16 <= j < 29 ==> JointList[15] != JointList[j];
  }

  lemma JointListRows16to21()
    ensures DistinctFrom(JointList, 16, 21)
  {
  }

  lemma JointListRows21to29()
    ensures DistinctFrom(JointList, 21, 29)
  {
  }

  /** There are 29 joint names. */
  lemma JointNamesCount()
    ensures |JointNames| == 29
  {
    JointListRows0to3();
    JointListRows3to6();
    JointListRows6to9();
    JointListRows9to12();
    JointListRows12to14();
    JointListRows14to16();
    JointListRows16to21();
    JointListRows21to29();
    DistinctFromJoin(JointList, 0, 3, 6);
    DistinctFromJoin(JointList, 0, 6, 9);
    DistinctFromJoin(JointList, 0, 9, 12);
    DistinctFromJoin(JointList, 0, 12, 14);
    DistinctFromJoin(JointList, 0, 14, 16);
    DistinctFromJoin(JointList, 0, 16, 21);
    DistinctFromJoin(JointList, 0, 21, 29);
    DistinctCount(JointList);
  }

  /** Every end of every bone is one of the 29 joint names. */
  lemma ConnectionsUseJointNames()
    ensures Joints(Connections) <= JointNames
  {
    forall i | 0 <= i < |Connections|
      ensures Connections[i].0 in JointNames && Connections[i].1 in JointNames
    {
    }
  }

  /** Every one of the 29 joint names is the end of some bone. */
  lemma ConnectionsSpanJointNames()
    ensures JointNames <= Joints(Connections)
  {
    assert Connections[0].0 == "Head";
    assert Connections[0].1 == "Neck";
    assert Connections[1].1 == "Chest";
    assert Connections[2].1 == "Hips";
    assert Connections[21].1 == "HeadEnd";
    assert Connections[3].1 == "LeftShoulder";
    assert Connections[4].1 == "LeftArm";
    assert Connections[5].1 == "LeftForearm";
    assert Connections[6].1 == "LeftHand";
    assert Connections[19].1 == "LeftFinger";
    assert Connections[20].1 == "LeftFingerEnd";
    assert Connections[7].1 == "RightShoulder";
    assert Connections[8].1 == "RightArm";
    assert Connections[9].1 == "RightForearm";
    assert Connections[10].1 == "RightHand";
    assert Connections[17].1 == "RightFinger";
    assert Connections[18].1 == "RightFingerEnd";
    assert Connections[11].1 == "LeftThigh";
    assert Connections[12].1 == "LeftLeg";
    assert Connections[13].1 == "LeftFoot";
    assert Connections[25].1 == "LeftHeel";
    assert Connections[26].1 == "LeftToe";
    assert Connections[27].1 == "LeftToeEnd";
    assert Connections[14].1 == "RightThigh";
    assert Connections[15].1 == "RightLeg";
    assert Connections[16].1 == "RightFoot";
    assert Connections[22].1 == "RightHeel";
    assert Connections[23].1 == "RightToe";
    assert Connections[24].1 == "RightToeEnd";
  }

  /**
   * The shape of the topology: 28 distinct bones, none of them a self-loop,
   * spanning exactly the 29 joint names.
   */
  lemma ConnectionsShape()
    ensures |Connections| == 28
    ensures NoSelfBones(Connections)
    ensures Distinct(Connections)
    ensures Joints(Connections) == JointNames && |JointNames| == 29
  {
    ConnectionsWellFormed();
    ConnectionsUseJointNames();
    ConnectionsSpanJointNames();
    JointNamesCount();
  }
}
