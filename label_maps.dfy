/**
 * The label maps shared by the retraining job, the dataset preparation
 * code and the urgency data preparation: department2id and urgency2id as
 * written (ordered dict literals), and their inverses built by the
 * comprehension {v: k for k, v in m.items()}.
 */
module LabelMaps {

  /** The two classification targets: the label columns of the complaints tables. */
  datatype Label = Department | Urgency

  /** The column name, and the value of the LABEL setting, for a label. */
  function LabelName(l: Label): (s: string)
    ensures s == "department" || s == "urgency"
    ensures l.Department? <==> s == "department"
  {
    match l
    case Department => "department"
    case Urgency => "urgency"
  }

  /** A dict written as a literal: its (key, value) pairs in insertion order. */
  type Pairs<K, V> = seq<(K, V)>

  /** The dict a literal builds: a later entry for the same key overwrites an earlier one. */
  function ToMap<K(==), V(==)>(ps: Pairs<K, V>): (m: map<K, V>)
    ensures forall i :: 0 <= i < |ps| ==> ps[i].0 in m
    ensures forall k :: k in m ==> exists i :: 0 <= i < |ps| && ps[i].0 == k
  {
    if ps == [] then map[]
    else
      var m := ToMap(ps[..|ps| - 1]);
      assert forall i :: 0 <= i < |ps| - 1 ==> ps[..|ps| - 1][i] == ps[i];
      m[ps[|ps| - 1].0 := ps[|ps| - 1].1]
  }

  /** {v: k for k, v in m.items()}, visiting the entries in insertion order, so the last key wins. */
  function Inverse<K(==), V(==)>(ps: Pairs<K, V>): (r: map<V, K>)
  {
    if ps == [] then map[]
    else Inverse(ps[..|ps| - 1])[ps[|ps| - 1].1 := ps[|ps| - 1].0]
  }

  /** No two entries share a key, and no two share a value. */
  predicate OneToOne<K(==), V(==)>(ps: Pairs<K, V>)
  {
    forall i, j :: 0 <= i < j < |ps| ==> ps[i].0 != ps[j].0 && ps[i].1 != ps[j].1
  }

  /** Dropping the last entry of a one-to-one literal leaves it one-to-one. */
  lemma OneToOneInit<K, V>(ps: Pairs<K, V>)
    requires OneToOne(ps) && ps != []
    ensures OneToOne(ps[..|ps| - 1])
  {
    var init := ps[..|ps| - 1];
    forall i, j | 0 <= i < j < |init|
      ensures init[i].0 != init[j].0 && init[i].1 != init[j].1
    {
      assert init[i] == ps[i] && init[j] == ps[j];
    }
  }

  /** Each key of a one-to-one literal maps to its own value in the dict. */
  lemma {:induction false} ToMapValues<K, V>(ps: Pairs<K, V>)
    requires OneToOne(ps)
    ensures forall i :: 0 <= i < |ps| ==> ToMap(ps)[ps[i].0] == ps[i].1
  {
    if ps != [] {
      var init := ps[..|ps| - 1];
      OneToOneInit(ps);
      ToMapValues(init);
      forall i | 0 <= i < |ps| - 1
        ensures ToMap(ps)[ps[i].0] == ps[i].1
      {
        assert init[i] == ps[i];
      }
    }
  }

  /** Each value of a one-to-one literal maps back to its own key in the inverse. */
  lemma {:induction false} InverseValues<K, V>(ps: Pairs<K, V>)
    requires OneToOne(ps)
    ensures forall i :: 0 <= i < |ps| ==> ps[i].1 in Inverse(ps) && Inverse(ps)[ps[i].1] == ps[i].0
  {
    if ps != [] {
      var init := ps[..|ps| - 1];
      OneToOneInit(ps);
      InverseValues(init);
      forall i | 0 <= i < |ps| - 1
        ensures ps[i].1 in Inverse(ps) && Inverse(ps)[ps[i].1] == ps[i].0
      {
        assert init[i] == ps[i];
      }
    }
  }

  /** The inverse holds only values the literal has. */
  lemma {:induction false} InverseDomain<K, V>(ps: Pairs<K, V>)
    ensures forall v :: v in Inverse(ps) ==> exists i :: 0 <= i < |ps| && ps[i].1 == v
  {
    if ps != [] {
      var init := ps[..|ps| - 1];
      InverseDomain(init);
      forall v | v in Inverse(ps)
        ensures exists i :: 0 <= i < |ps| && ps[i].1 == v
      {
        if v != ps[|ps| - 1].1 {
          assert Inverse(ps) == Inverse(init)[ps[|ps| - 1].1 := ps[|ps| - 1].0];
          assert v in Inverse(init);
          var i :| 0 <= i < |init| && init[i].1 == v;
          assert ps[i].1 == v;
        }
      }
    }
  }

  /** The entries of a one-to-one literal are exactly what its dict holds. */
  lemma ToMapEntries<K, V>(ps: Pairs<K, V>)
    requires OneToOne(ps)
    ensures forall i :: 0 <= i < |ps| ==> ToMap(ps)[ps[i].0] == ps[i].1
    ensures forall i :: 0 <= i < |ps| ==> ps[i].1 in Inverse(ps) && Inverse(ps)[ps[i].1] == ps[i].0
    ensures forall v :: v in Inverse(ps) ==> exists i :: 0 <= i < |ps| && ps[i].1 == v
  {
    ToMapValues(ps);
    InverseValues(ps);
    InverseDomain(ps);
  }

  /**
   * For a one-to-one literal the comprehension is the inverse of the dict,
   * in both directions.
   */
  lemma InverseInverts<K, V>(ps: Pairs<K, V>)
    requires OneToOne(ps)
    ensures forall k :: k in ToMap(ps) ==> ToMap(ps)[k] in Inverse(ps) && Inverse(ps)[ToMap(ps)[k]] == k
    ensures forall v :: v in Inverse(ps) ==> Inverse(ps)[v] in ToMap(ps) && ToMap(ps)[Inverse(ps)[v]] == v
  {
    ToMapEntries(ps);
    forall k | k in ToMap(ps)
      ensures ToMap(ps)[k] in Inverse(ps) && Inverse(ps)[ToMap(ps)[k]] == k
    {
      var i :| 0 <= i < |ps| && ps[i].0 == k;
    }
    forall v | v in Inverse(ps)
      ensures Inverse(ps)[v] in ToMap(ps) && ToMap(ps)[Inverse(ps)[v]] == v
    {
      var i :| 0 <= i < |ps| && ps[i].1 == v;
    }
  }

  const DEPARTMENT_NAMES: seq<string> := [
    "Municipal Governance & Community Services",
    "Education, Health & Social Welfare",
    "Infrastructure, Utilities & Natural Resources",
    "Security & Law Enforcement"]

  const URGENCY_NAMES: seq<string> := ["NORMAL", "URGENT", "HIGHLY URGENT"]

  /** A literal that numbers the names 0, 1, 2, ... in order. */
  function Numbered(names: seq<string>): (ps: Pairs<string, int>)
    ensures |ps| == |names|
    ensures forall i :: 0 <= i < |ps| ==> ps[i] == (names[i], i)
  {
    seq(|names|, i requires 0 <= i < |names| => (names[i], i))
  }

  /** department2id, identical in the retraining config and both dataset-preparation scripts. */
  const DEPARTMENT2ID: Pairs<string, int> := Numbered(DEPARTMENT_NAMES)

  /** urgency2id, and LABEL_MAP of the urgency data preparation. */
  const URGENCY2ID: Pairs<string, int> := Numbered(URGENCY_NAMES)

  /** ID2LABEL of the urgency data preparation, written out as a literal. */
  const ID2LABEL: map<int, string> := map[0 := "NORMAL", 1 := "URGENT", 2 := "HIGHLY URGENT"]

  predicate Distinct(names: seq<string>)
  {
    forall i, j :: 0 <= i < j < |names| ==> names[i] != names[j]
  }

  lemma NumberedOneToOne(names: seq<string>)
    requires Distinct(names)
    ensures OneToOne(Numbered(names))
  {
  }

  /** Each name's id is its position, and the ids are exactly the positions. */
  lemma NumberedMaps(names: seq<string>)
    requires Distinct(names)
    ensures forall k :: k in ToMap(Numbered(names)) <==> k in names
    ensures forall i :: 0 <= i < |names| ==> ToMap(Numbered(names))[names[i]] == i
    ensures forall v :: v in Inverse(Numbered(names)) <==> 0 <= v < |names|
    ensures forall i :: 0 <= i < |names| ==> Inverse(Numbered(names))[i] == names[i]
  {
    var ps := Numbered(names);
    NumberedOneToOne(names);
    ToMapEntries(ps);
    forall i | 0 <= i < |names|
      ensures names[i] in ToMap(ps) && ToMap(ps)[names[i]] == i
      ensures i in Inverse(ps) && Inverse(ps)[i] == names[i]
    {
      assert ps[i] == (names[i], i);
    }
    forall k | k in ToMap(ps)
      ensures k in names
    {
      var i :| 0 <= i < |ps| && ps[i].0 == k;
      assert ps[i] == (names[i], i);
    }
    forall v | v in Inverse(ps)
      ensures 0 <= v < |names|
    {
      var i :| 0 <= i < |ps| && ps[i].1 == v;
      assert ps[i] == (names[i], i);
    }
  }

  lemma DepartmentNamesDistinct()
    ensures Distinct(DEPARTMENT_NAMES)
  {
    var d := DEPARTMENT_NAMES;
    assert |d[0]| == 41 && |d[1]| == 34 && |d[2]| == 45 && |d[3]| == 26;
  }

  lemma UrgencyNamesDistinct()
    ensures Distinct(URGENCY_NAMES)
  {
    var u := URGENCY_NAMES;
    assert u[0][0] == 'N' && u[1][0] == 'U' && u[2][0] == 'H';
  }

  /** department2id and id2department are mutually inverse, over the ids 0..3. */
  lemma DepartmentMapsInverse()
    ensures forall k :: k in ToMap(DEPARTMENT2ID) ==>
      ToMap(DEPARTMENT2ID)[k] in Inverse(DEPARTMENT2ID) && Inverse(DEPARTMENT2ID)[ToMap(DEPARTMENT2ID)[k]] == k
    ensures forall v :: v in Inverse(DEPARTMENT2ID) ==>
      Inverse(DEPARTMENT2ID)[v] in ToMap(DEPARTMENT2ID) && ToMap(DEPARTMENT2ID)[Inverse(DEPARTMENT2ID)[v]] == v
    ensures forall v :: v in Inverse(DEPARTMENT2ID) <==> 0 <= v < 4
  {
    DepartmentNamesDistinct();
    NumberedOneToOne(DEPARTMENT_NAMES);
    InverseInverts(DEPARTMENT2ID);
    NumberedMaps(DEPARTMENT_NAMES);
  }

  /** urgency2id and id2urgency are mutually inverse, over the ids 0..2. */
  lemma UrgencyMapsInverse()
    ensures forall k :: k in ToMap(URGENCY2ID) ==>
      ToMap(URGENCY2ID)[k] in Inverse(URGENCY2ID) && Inverse(URGENCY2ID)[ToMap(URGENCY2ID)[k]] == k
    ensures forall v :: v in Inverse(URGENCY2ID) ==>
      Inverse(URGENCY2ID)[v] in ToMap(URGENCY2ID) && ToMap(URGENCY2ID)[Inverse(URGENCY2ID)[v]] == v
    ensures forall v :: v in Inverse(URGENCY2ID) <==> 0 <= v < 3
  {
    UrgencyNamesDistinct();
    NumberedOneToOne(URGENCY_NAMES);
    InverseInverts(URGENCY2ID);
    NumberedMaps(URGENCY_NAMES);
  }

  /** The hand-written ID2LABEL is exactly the inverse of LABEL_MAP. */
  lemma Id2LabelIsInverse()
    ensures Inverse(URGENCY2ID) == ID2LABEL
  {
    UrgencyNamesDistinct();
    NumberedMaps(URGENCY_NAMES);
    var inv := Inverse(URGENCY2ID);
    assert inv.Keys == ID2LABEL.Keys by {
      assert forall v :: v in inv <==> 0 <= v < 3;
    }
    assert inv[0] == URGENCY_NAMES[0];
    assert inv[1] == URGENCY_NAMES[1];
    assert inv[2] == URGENCY_NAMES[2];
  }
}
