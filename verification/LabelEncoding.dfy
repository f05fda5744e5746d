/**
  Label sets as 0/1 vectors over a fixed label order, in which `no_action` never
  stands beside another label, and the thresholding that produces such vectors.
 */
module LabelEncoding {
  import opened Common

  /** A label id: `no_action`, or any other string. */
  datatype Id = NO_ACTION | Business(name: string)

  datatype Error = UnknownLabels | NoActionNotAlone | LengthMismatch | ThresholdMismatch

  datatype Encoder = Encoder(order: seq<Id>)
  {
    /** What the constructor checks. */
    ghost predicate Valid() {
      order != [] && Unique(order) && NO_ACTION in order
    }
  }

  ghost predicate Unique(ids: seq<Id>) {
    forall i, j :: 0 <= i < j < |ids| ==> ids[i] != ids[j]
  }

  function Bit(b: bool): nat {
    if b then 1 else 0
  }

  /** One bit per label of the order. */
  function Bits(order: seq<Id>, labels: seq<Id>): (v: seq<nat>)
    ensures |v| == |order| && forall i :: 0 <= i < |v| ==> v[i] == Bit(order[i] in labels)
  {
    seq(|order|, i requires 0 <= i < |order| => Bit(order[i] in labels))
  }

  function Encode(e: Encoder, labels: seq<Id>): Result<seq<nat>, Error> {
    if exists l :: l in labels && l !in e.order then Err(UnknownLabels)
    else if NO_ACTION in labels && |labels| > 1 then Err(NoActionNotAlone)
    else Ok(Bits(e.order, labels))
  }

  /** The labels whose bit is set, in order. */
  function Selected(order: seq<Id>, vector: seq<nat>): seq<Id>
    requires |vector| == |order|
  {
    if order == [] then []
    else
      Selected(order[..|order| - 1], vector[..|order| - 1])
      + (if vector[|order| - 1] != 0 then [order[|order| - 1]] else [])
  }

  function Others(labels: seq<Id>): seq<Id> {
    if labels == [] then []
    else Others(labels[..|labels| - 1]) + (if labels[|labels| - 1] != NO_ACTION then [labels[|labels| - 1]] else [])
  }

  function Enforced(labels: seq<Id>): seq<Id> {
    if NO_ACTION in labels && |labels| > 1 then Others(labels) else labels
  }

  function Decode(e: Encoder, vector: seq<nat>): Result<seq<Id>, Error> {
    if |vector| != |e.order| then Err(LengthMismatch) else Ok(Enforced(Selected(e.order, vector)))
  }

  function Predicted(order: seq<Id>, row: seq<real>, thresholds: map<Id, real>): (v: seq<nat>)
    requires |row| == |order| && forall l :: l in order ==> l in thresholds
    ensures |v| == |order| && forall i :: 0 <= i < |v| ==> v[i] == Bit(row[i] >= thresholds[order[i]])
  {
    seq(|order|, i requires 0 <= i < |order| => Bit(row[i] >= thresholds[order[i]]))
  }

  function Threshold(e: Encoder, row: seq<real>, thresholds: map<Id, real>): Result<seq<nat>, Error> {
    if |row| != |e.order| then Err(LengthMismatch)
    else if thresholds.Keys != (set l | l in e.order) then Err(ThresholdMismatch)
    else Ok(Bits(e.order, Enforced(Selected(e.order, Predicted(e.order, row, thresholds)))))
  }

  // ----- Selection and exclusivity -----

  lemma {:induction false} SelectedHolds(order: seq<Id>, vector: seq<nat>, i: nat)
    requires |vector| == |order| && i < |order| && Unique(order)
    ensures order[i] in Selected(order, vector) <==> vector[i] != 0
  {
    var last := |order| - 1;
    if i < last {
      SelectedHolds(order[..last], vector[..last], i);
      assert order[i] != order[last];
    } else {
      SelectedIsDrawn(order[..last], vector[..last]);
      assert order[last] !in order[..last];
    }
  }

  lemma {:induction false} SelectedIsDrawn(order: seq<Id>, vector: seq<nat>)
    requires |vector| == |order|
    ensures forall l :: l in Selected(order, vector) ==> l in order
  {
    if order != [] {
      SelectedIsDrawn(order[..|order| - 1], vector[..|order| - 1]);
    }
  }

  lemma {:induction false} SelectedIsUnique(order: seq<Id>, vector: seq<nat>)
    requires |vector| == |order| && Unique(order)
    ensures Unique(Selected(order, vector))
  {
    if order != [] {
      var last := |order| - 1;
      SelectedIsUnique(order[..last], vector[..last]);
      SelectedIsDrawn(order[..last], vector[..last]);
      assert order[last] !in order[..last];
      UniqueSnoc(Selected(order[..last], vector[..last]), order[last]);
    }
  }

  lemma {:induction false} UniqueSnoc(ids: seq<Id>, l: Id)
    requires Unique(ids)
    ensures l !in ids ==> Unique(ids + [l])
  {
  }

  lemma {:induction false} OthersHold(labels: seq<Id>)
    ensures forall l :: l in Others(labels) <==> l in labels && l != NO_ACTION
  {
    if labels != [] {
      OthersHold(labels[..|labels| - 1]);
      assert labels == labels[..|labels| - 1] + [labels[|labels| - 1]];
    }
  }

  lemma {:induction false} TwoHoldAnother(labels: seq<Id>)
    requires Unique(labels) && |labels| >= 2
    ensures exists l :: l in labels && l != NO_ACTION
  {
    assert labels[0] in labels && labels[1] in labels && labels[0] != labels[1];
  }

  lemma {:induction false} SomeOther(labels: seq<Id>)
    requires Unique(labels) && |labels| >= 2
    ensures Others(labels) != []
  {
  }

  /** Exclusivity never empties a selection, and only ever drops `no_action`, beside another label. */
  lemma {:induction false} EnforcedHolds(labels: seq<Id>)
    requires Unique(labels)
    ensures Enforced(labels) == [] <==> labels == []
    ensures forall l :: l in Enforced(labels) <==> l in labels && (l == NO_ACTION ==> |labels| == 1)
    ensures NO_ACTION in Enforced(labels) ==> |Enforced(labels)| == 1
  {
    OthersHold(labels);
    if |labels| >= 2 {
      SomeOther(labels);
    }
  }

  /** Two labels are selected exactly when two bits are set. */
  predicate Mixed(order: seq<Id>, vector: seq<nat>)
    requires |vector| == |order|
  {
    && (exists i :: 0 <= i < |order| && order[i] == NO_ACTION && vector[i] != 0)
    && (exists j :: 0 <= j < |order| && order[j] != NO_ACTION && vector[j] != 0)
  }

  lemma {:induction false} AloneIffUnmixed(order: seq<Id>, vector: seq<nat>)
    requires |vector| == |order| && Unique(order)
    ensures NO_ACTION in Selected(order, vector) && |Selected(order, vector)| > 1 <==> Mixed(order, vector)
  {
    var chosen := Selected(order, vector);
    SelectedIsUnique(order, vector);
    SelectedIsDrawn(order, vector);
    forall i | 0 <= i < |order| ensures order[i] in chosen <==> vector[i] != 0 {
      SelectedHolds(order, vector, i);
    }
    if NO_ACTION in chosen && |chosen| > 1 {
      TwoHoldAnother(chosen);
      var l :| l in chosen && l != NO_ACTION;
      var i :| 0 <= i < |order| && order[i] == NO_ACTION;
      var j :| 0 <= j < |order| && order[j] == l;
      assert vector[i] != 0 && vector[j] != 0;
    }
    if Mixed(order, vector) {
      var j :| 0 <= j < |order| && order[j] != NO_ACTION && vector[j] != 0;
      assert order[j] in chosen && NO_ACTION in chosen;
      TwoMembers(chosen, order[j], NO_ACTION);
    }
  }

  lemma {:induction false} TwoMembers(ids: seq<Id>, a: Id, b: Id)
    requires a in ids && b in ids && a != b
    ensures |ids| > 1
  {
  }

  // ----- Round trips -----

  /** Decoding an encoded label list gives back the same labels, in encoder order and once each. */
  lemma {:induction false} DecodeEncode(e: Encoder, labels: seq<Id>)
    requires e.Valid() && Encode(e, labels).Ok?
    ensures Decode(e, Encode(e, labels).value).Ok?
    ensures var back := Decode(e, Encode(e, labels).value).value;
            && Unique(back) && (forall l :: l in back <==> l in labels)
            && back == Selected(e.order, Encode(e, labels).value)
  {
    hide Unique;
    hide Selected;
    var v := Encode(e, labels).value;
    var chosen := Selected(e.order, v);
    SelectedIsUnique(e.order, v);
    SelectedIsDrawn(e.order, v);
    forall l ensures l in chosen <==> l in labels {
      if l in e.order {
        var i :| 0 <= i < |e.order| && e.order[i] == l;
        SelectedHolds(e.order, v, i);
      }
    }
    if NO_ACTION in chosen {
      if |chosen| > 1 {
        TwoHoldAnother(chosen);
      }
    }
  }

  lemma {:induction false} BackInBits(order: seq<Id>, vector: seq<nat>, i: nat)
    requires Unique(order) && |vector| == |order| && i < |order| && vector[i] <= 1
    ensures Bits(order, Enforced(Selected(order, vector)))[i]
         == if order[i] == NO_ACTION && |Selected(order, vector)| != 1 then 0 else vector[i]
  {
    SelectedIsUnique(order, vector);
    SelectedHolds(order, vector, i);
    EnforcedHolds(Selected(order, vector));
  }

  /** A 0/1 vector survives decoding and encoding exactly when it does not mix `no_action` with another label. */
  lemma {:induction false} EncodeDecode(e: Encoder, vector: seq<nat>)
    requires e.Valid() && |vector| == |e.order| && forall i :: 0 <= i < |vector| ==> vector[i] <= 1
    ensures Encode(e, Decode(e, vector).value).Ok?
    ensures Encode(e, Decode(e, vector).value) == Ok(vector) <==> !Mixed(e.order, vector)
  {
    hide Selected;
    hide Enforced;
    hide Unique;
    var chosen := Selected(e.order, vector);
    SelectedIsUnique(e.order, vector);
    SelectedIsDrawn(e.order, vector);
    EnforcedHolds(chosen);
    AloneIffUnmixed(e.order, vector);
    var back := Bits(e.order, Enforced(chosen));
    forall i | 0 <= i < |e.order|
      ensures back[i] == if e.order[i] == NO_ACTION && |chosen| != 1 then 0 else vector[i]
    {
      BackInBits(e.order, vector, i);
    }
    forall i | 0 <= i < |e.order| ensures e.order[i] in chosen <==> vector[i] != 0 {
      SelectedHolds(e.order, vector, i);
    }
    if !Mixed(e.order, vector) {
      assert back == vector;
    }
  }

  /** Thresholding never mixes `no_action` with another label. */
  lemma {:induction false} ThresholdIsExclusive(e: Encoder, row: seq<real>, thresholds: map<Id, real>)
    requires e.Valid() && Threshold(e, row, thresholds).Ok?
    ensures !Mixed(e.order, Threshold(e, row, thresholds).value)
  {
    var labels := Enforced(Selected(e.order, Predicted(e.order, row, thresholds)));
    SelectedIsUnique(e.order, Predicted(e.order, row, thresholds));
    EnforcedHolds(Selected(e.order, Predicted(e.order, row, thresholds)));
    var v := Threshold(e, row, thresholds).value;
    if Mixed(e.order, v) {
      var j :| 0 <= j < |e.order| && e.order[j] != NO_ACTION && v[j] != 0;
      TwoMembers(labels, e.order[j], NO_ACTION);
    }
  }

  lemma {:induction false} PredictedSelection(order: seq<Id>, row: seq<real>, thresholds: map<Id, real>)
    requires Unique(order) && |row| == |order| && forall l :: l in order ==> l in thresholds
    ensures Selected(order, Predicted(order, row, thresholds)) == []
      <==> forall i :: 0 <= i < |order| ==> row[i] < thresholds[order[i]]
  {
    var chosen := Selected(order, Predicted(order, row, thresholds));
    SelectedIsDrawn(order, Predicted(order, row, thresholds));
    forall i | 0 <= i < |order| ensures order[i] in chosen <==> row[i] >= thresholds[order[i]] {
      SelectedHolds(order, Predicted(order, row, thresholds), i);
    }
    if chosen != [] {
      assert chosen[0] in chosen;
      var i :| 0 <= i < |order| && order[i] == chosen[0];
      assert row[i] >= thresholds[order[i]];
    }
  }

  lemma {:induction false} ZeroBits(order: seq<Id>, labels: seq<Id>)
    requires forall l :: l in labels ==> l in order
    ensures Bits(order, labels) == Zeros(|order|) <==> labels == []
  {
    if labels != [] {
      assert labels[0] in labels;
      var i :| 0 <= i < |order| && order[i] == labels[0];
      assert Bits(order, labels)[i] == 1;
    }
  }

  /** A row is mapped to the all-zero vector exactly when no probability reaches its threshold. */
  lemma {:induction false} ZeroIffNoneReaches(e: Encoder, row: seq<real>, thresholds: map<Id, real>)
    requires e.Valid() && Threshold(e, row, thresholds).Ok?
    ensures Threshold(e, row, thresholds).value == Zeros(|e.order|)
      <==> forall i :: 0 <= i < |e.order| ==> row[i] < thresholds[e.order[i]]
  {
    hide Selected;
    hide Predicted;
    hide Enforced;
    hide Unique;
    hide Bits;
    hide Zeros;
    var predicted := Predicted(e.order, row, thresholds);
    var chosen := Selected(e.order, predicted);
    SelectedIsUnique(e.order, predicted);
    SelectedIsDrawn(e.order, predicted);
    EnforcedHolds(chosen);
    PredictedSelection(e.order, row, thresholds);
    ZeroBits(e.order, Enforced(chosen));
  }
}
