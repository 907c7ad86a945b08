/**
 * The submit branch of the form (app.py:175-191): a dictionary keyed by the
 * feature names is filled with zeros, overwritten slot by slot, and finally
 * laid out in the declared column order.
 */
module Encoder {
  import opened Schema

  /** The dictionary the encoder works on: feature name to column value. */
  type Slots = map<string, real>

  /** The set of names in a column list. */
  function NameSet(columns: seq<string>): set<string>
  {
    set j | 0 <= j < |columns| :: columns[j]
  }

  /**
   * Every declared column is a key of slots; the first k hold v's values
   * and the rest still hold 0.
   */
  ghost predicate FilledUpTo(slots: Slots, v: seq<real>, k: nat)
    requires |v| == |Features|
  {
    forall i :: 0 <= i < |Features| ==>
      Features[i] in slots && slots[Features[i]] == (if i < k then v[i] else 0.0)
  }

  /**
   * The guarded smoking_status update completes the vector: for a status with
   * a column it writes that column's 1, and for Unknown it leaves the group
   * at the zeros it already holds.
   */
  lemma SmokingGuardFills(slots: Slots, a: Answers)
    requires FilledUpTo(slots, FeatureVector(a), SmokingStart)
    ensures FilledUpTo(SetIfDeclared(slots, SmokingPrefix + a.smokingStatus.Label()),
                       FeatureVector(a), |Features|)
  {
    var v := FeatureVector(a);
    var name := SmokingPrefix + a.smokingStatus.Label();
    var r := SetIfDeclared(slots, name);
    SmokingSlotDeclared(a.smokingStatus);
    SmokingOneHot(a);
    FeaturesDistinct();
    if a.smokingStatus == Unknown {
      forall i | 0 <= i < |Features| ensures Features[i] in r && r[Features[i]] == v[i] {
        if i >= SmokingStart {
          assert v[i] == v[SmokingStart..][i - SmokingStart];
        }
      }
    } else {
      forall i | 0 <= i < |Features| ensures Features[i] in r && r[Features[i]] == v[i] {
        if i >= SmokingStart {
          assert v[i] == v[SmokingStart..][i - SmokingStart];
        }
      }
    }
  }

  /** `{feature: 0 for feature in features}` (app.py:176): every declared name, each 0. */
  method ZeroSlots(columns: seq<string>) returns (slots: Slots)
    ensures slots.Keys == NameSet(columns)
    ensures forall name :: name in slots ==> slots[name] == 0.0
  {
    slots := map[];
    for i := 0 to |columns|
      invariant slots.Keys == NameSet(columns[..i])
      invariant forall name :: name in slots ==> slots[name] == 0.0
    {
      assert columns[..i + 1] == columns[..i] + [columns[i]];
      slots := slots[columns[i] := 0.0];
    }
    assert columns[..|columns|] == columns;
  }

  /**
   * The guarded update of app.py:186-189: the slot is set to 1 only when its
   * name is already a key, so no key is ever added and no other slot moves.
   */
  function SetIfDeclared(slots: Slots, name: string): (r: Slots)
    ensures r.Keys == slots.Keys
    ensures name in slots ==> r[name] == 1.0
    ensures name !in slots ==> r == slots
    ensures forall other :: other in slots && other != name ==> r[other] == slots[other]
  {
    if name in slots then slots[name := 1.0] else slots
  }

  /**
   * `pd.DataFrame([user_data], columns=features)` (app.py:191): one row whose
   * i-th cell is the value stored under the i-th column name.
   */
  method LayOut(slots: Slots, columns: seq<string>) returns (row: seq<real>)
    requires NameSet(columns) <= slots.Keys
    ensures |row| == |columns|
    ensures forall i :: 0 <= i < |columns| ==> columns[i] in slots && row[i] == slots[columns[i]]
  {
    row := [];
    for i := 0 to |columns|
      invariant |row| == i
      invariant forall j :: 0 <= j < i ==> columns[j] in slots && row[j] == slots[columns[j]]
    {
      assert columns[i] in NameSet(columns);
      row := row + [slots[columns[i]]];
    }
  }

  /**
   * The direct assignments of app.py:177-184: gender as its code, the numeric
   * answers and flags copied unchanged, the two binary choices as 0/1.
   */
  method AssignAnswers(slots: Slots, a: Answers) returns (userData: Slots)
    requires FilledUpTo(slots, FeatureVector(a), 0)
    ensures userData.Keys == slots.Keys
    ensures FilledUpTo(userData, FeatureVector(a), WorkTypeStart)
  {
    ghost var v := FeatureVector(a);
    // The eight directly assigned names are the first eight declared columns.
    assert Features[0] == "gender" && Features[1] == "age" && Features[2] == "hypertension"
      && Features[3] == "heart_disease" && Features[4] == "ever_married"
      && Features[5] == "Residence_type" && Features[6] == "avg_glucose_level" && Features[7] == "bmi";
    FeaturesDistinct();

    userData := slots["gender" := GenderCode(a.gender)];
    assert FilledUpTo(userData, v, 1);
    userData := userData["age" := a.age as real];
    assert FilledUpTo(userData, v, 2);
    userData := userData["hypertension" := a.hypertension as real];
    assert FilledUpTo(userData, v, 3);
    userData := userData["heart_disease" := a.heartDisease as real];
    assert FilledUpTo(userData, v, 4);
    userData := userData["ever_married" := if a.everMarried == Yes then 1.0 else 0.0];
    assert FilledUpTo(userData, v, 5);
    userData := userData["Residence_type" := if a.residence == Urban then 1.0 else 0.0];
    assert FilledUpTo(userData, v, 6);
    userData := userData["avg_glucose_level" := a.avgGlucoseLevel];
    assert FilledUpTo(userData, v, 7);
    userData := userData["bmi" := a.bmi];
  }

  /**
   * The whole encoding step (app.py:176-191). Returns the dictionary and the
   * row handed to the classifier; the row is exactly FeatureVector(a), and the
   * dictionary has exactly the declared names as keys.
   */
  method Encode(a: Answers) returns (userData: Slots, row: seq<real>)
    ensures userData.Keys == NameSet(Features)
    ensures row == FeatureVector(a)
  {
    userData := ZeroSlots(Features);
    assert FilledUpTo(userData, FeatureVector(a), 0);
    userData := AssignAnswers(userData, a);

    WorkTypeSlotDeclared(a.workType);
    WorkTypeOneHot(a);
    FeaturesDistinct();
    userData := SetIfDeclared(userData, WorkTypePrefix + a.workType.Label());
    assert FilledUpTo(userData, FeatureVector(a), SmokingStart);

    SmokingGuardFills(userData, a);
    userData := SetIfDeclared(userData, SmokingPrefix + a.smokingStatus.Label());

    row := LayOut(userData, Features);
  }
}
