/**
 * Reading a feature row back into form answers. The application never
 * decodes; this is the inverse that shows the encoding of app.py:176-191
 * loses nothing: distinct submissions reach the classifier as distinct rows.
 */
module Decode {
  import opened Wrappers
  import opened Schema

  function DecodeGender(x: real): (r: Option<Gender>)
    ensures r.Some? ==> GenderCode(r.value) == x
  {
    if x == 1.0 then Some(Male)
    else if x == 0.0 then Some(Female)
    else if x == 2.0 then Some(Other)
    else None
  }

  function DecodeAge(x: real): (r: Option<Age>)
    ensures r.Some? ==> r.value as real == x
  {
    if x == x.Floor as real && 0 <= x.Floor <= 120 then Some(x.Floor) else None
  }

  function DecodeFlag(x: real): (r: Option<Flag>)
    ensures r.Some? ==> r.value as real == x
  {
    if x == 0.0 then Some(0) else if x == 1.0 then Some(1) else None
  }

  function DecodeMeasure(x: real): (r: Option<Measure>)
    ensures r.Some? ==> r.value == x
  {
    if x >= 0.0 then Some(x) else None
  }

  function DecodeWorkType(group: seq<real>): (r: Option<WorkType>)
    ensures r.Some? ==> OneHotAt(group, WorkTypeOffset(r.value))
  {
    if OneHotAt(group, 0) then Some(NeverWorked)
    else if OneHotAt(group, 1) then Some(Private)
    else if OneHotAt(group, 2) then Some(SelfEmployed)
    else if OneHotAt(group, 3) then Some(Children)
    else None
  }

  /** All zero is the Unknown reference category; otherwise exactly one 1. */
  function DecodeSmoking(group: seq<real>): (r: Option<SmokingStatus>)
    ensures r == Some(Unknown) ==> AllZero(group)
    ensures r.Some? && r.value != Unknown ==> OneHotAt(group, SmokingOffset(r.value))
  {
    if AllZero(group) then Some(Unknown)
    else if OneHotAt(group, 0) then Some(FormerlySmoked)
    else if OneHotAt(group, 1) then Some(NeverSmoked)
    else if OneHotAt(group, 2) then Some(Smokes)
    else None
  }

  /** The answers a 15-column row encodes, if it is a row the encoder can produce. */
  function DecodeRow(v: seq<real>): Option<Answers>
  {
    if |v| != |Features| then None
    else
      var gender :- DecodeGender(v[0]);
      var age :- DecodeAge(v[1]);
      var hypertension :- DecodeFlag(v[2]);
      var heartDisease :- DecodeFlag(v[3]);
      var everMarried :- DecodeFlag(v[4]);
      var residence :- DecodeFlag(v[5]);
      var avgGlucoseLevel :- DecodeMeasure(v[6]);
      var bmi :- DecodeMeasure(v[7]);
      var workType :- DecodeWorkType(v[WorkTypeStart..SmokingStart]);
      var smokingStatus :- DecodeSmoking(v[SmokingStart..]);
      Some(Answers(gender, age, hypertension, heartDisease,
                   if everMarried == 1 then Yes else No,
                   if residence == 1 then Urban else Rural,
                   avgGlucoseLevel, bmi, workType, smokingStatus))
  }

  lemma DecodeWorkTypeAt(group: seq<real>, w: WorkType)
    requires |group| == 4 && OneHotAt(group, WorkTypeOffset(w))
    ensures DecodeWorkType(group) == Some(w)
  {
    forall k | 0 <= k < 4 ensures OneHotAt(group, k) <==> k == WorkTypeOffset(w) {
      OneHotUnique(group, WorkTypeOffset(w), k);
    }
  }

  lemma DecodeSmokingAt(group: seq<real>, s: SmokingStatus)
    requires |group| == 3
    requires s == Unknown ==> AllZero(group)
    requires s != Unknown ==> OneHotAt(group, SmokingOffset(s))
    ensures DecodeSmoking(group) == Some(s)
  {
    if s != Unknown {
      OneHotUnique(group, SmokingOffset(s), 0);
      forall k | 0 <= k < 3 ensures OneHotAt(group, k) <==> k == SmokingOffset(s) {
        OneHotUnique(group, SmokingOffset(s), k);
      }
    }
  }

  /** Decoding an encoded row gives back the submitted answers. */
  lemma DecodeEncode(a: Answers)
    ensures DecodeRow(FeatureVector(a)) == Some(a)
  {
    var v := FeatureVector(a);
    WorkTypeOneHot(a);
    DecodeWorkTypeAt(v[WorkTypeStart..SmokingStart], a.workType);
    SmokingOneHot(a);
    DecodeSmokingAt(v[SmokingStart..], a.smokingStatus);
    assert DecodeGender(v[0]) == Some(a.gender);
    assert DecodeAge(v[1]) == Some(a.age);
  }

  /** A row that decodes is exactly the encoding of what it decodes to. */
  lemma EncodeDecode(v: seq<real>)
    requires DecodeRow(v).Some?
    ensures FeatureVector(DecodeRow(v).value) == v
  {
    var a := DecodeRow(v).value;
    var u := FeatureVector(a);
    assert DecodeWorkType(v[WorkTypeStart..SmokingStart]) == Some(a.workType);
    assert DecodeSmoking(v[SmokingStart..]) == Some(a.smokingStatus);
    WorkTypeOneHot(a);
    SmokingOneHot(a);
    forall i | WorkTypeStart <= i < |v| ensures u[i] == v[i] {
      if i < SmokingStart {
        assert u[i] == u[WorkTypeStart..SmokingStart][i - WorkTypeStart];
        assert v[i] == v[WorkTypeStart..SmokingStart][i - WorkTypeStart];
      } else {
        assert u[i] == u[SmokingStart..][i - SmokingStart];
        assert v[i] == v[SmokingStart..][i - SmokingStart];
      }
    }
  }

  /** The encoder never maps two different submissions to the same row. */
  lemma EncodeInjective(a: Answers, b: Answers)
    requires FeatureVector(a) == FeatureVector(b)
    ensures a == b
  {
    DecodeEncode(a);
    DecodeEncode(b);
  }
}
