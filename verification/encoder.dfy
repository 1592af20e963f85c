/** The symptom-list encoder of the /predict handler: a list of symptom names
    becomes the 218-slot 0/1 feature vector the classifier expects. */
module Encoder {

  import opened Wrappers
  import opened Tables

  /** Position of the first occurrence of x in s, as Python's list.index gives
      it; None exactly where list.index would raise. */
  function IndexOf(s: seq<string>, x: string): (r: Option<nat>)
    ensures r.None? <==> x !in s
    ensures r.Some? ==> r.value < |s| && s[r.value] == x && x !in s[..r.value]
  {
    if |s| == 0 then None
    else if s[0] == x then Some(0)
    else match IndexOf(s[1..], x)
      case None => None
      case Some(i) =>
        assert s[..i + 1] == [s[0]] + s[1..][..i];
        Some(i + 1)
  }

  /** Slot i of the feature vector is set by the names: some given name is a
      known symptom whose (first) position in the table is i. */
  predicate Marked(names: seq<string>, i: int) {
    exists k :: 0 <= k < |names| && IndexOf(Symptoms, names[k]) == Some(i)
  }

  /** The feature vector the handler builds for the names: 218 slots, slot i
      is 1 exactly when Marked(names, i). */
  function Encoding(names: seq<string>): (f: seq<int>)
    ensures |f| == FeatureCount
    ensures forall i :: 0 <= i < |f| ==> f[i] == 0 || f[i] == 1
  {
    seq(FeatureCount, i => if Marked(names, i) then 1 else 0)
  }

  /** The names the handler warns about, in the order it warns: those that are
      not in the symptom table, duplicates included. */
  function UnknownNames(names: seq<string>): (u: seq<string>)
    ensures forall n :: n in u <==> n in names && n !in Symptoms
    ensures forall n :: multiset(u)[n] == if n in Symptoms then 0 else multiset(names)[n]
    ensures |u| <= |names|
  {
    NotIn(names, Symptoms)
  }

  /** The names, in order, that do not occur in table. */
  function NotIn(names: seq<string>, table: seq<string>): (u: seq<string>)
    ensures forall n :: n in u <==> n in names && n !in table
    ensures forall n :: multiset(u)[n] == if n in table then 0 else multiset(names)[n]
    ensures |u| <= |names|
  {
    if |names| == 0 then []
    else
      var last := names[|names| - 1];
      var front := names[..|names| - 1];
      assert names == front + [last];
      assert multiset(names) == multiset(front) + multiset{last};
      NotIn(front, table) + if last in table then [] else [last]
  }

  /** Processing one more name: an unknown name changes no slot; a known name
      sets the slot at its first position in the table and no other. */
  lemma {:induction false} EncodingAppend(names: seq<string>, name: string)
    ensures name !in Symptoms ==> Encoding(names + [name]) == Encoding(names)
    ensures name in Symptoms ==>
      IndexOf(Symptoms, name).value < FeatureCount &&
      Encoding(names + [name]) == Encoding(names)[IndexOf(Symptoms, name).value := 1]
  {
    var longer := names + [name];
    assert |Symptoms| < FeatureCount by {
      SymptomsDistinct();
    }
    forall i | 0 <= i < FeatureCount
      ensures Marked(longer, i) <==> Marked(names, i) || IndexOf(Symptoms, name) == Some(i)
    {
      if Marked(longer, i) {
        var k :| 0 <= k < |longer| && IndexOf(Symptoms, longer[k]) == Some(i);
        if k < |names| {
          assert longer[k] == names[k];
        }
      }
      if Marked(names, i) {
        var k :| 0 <= k < |names| && IndexOf(Symptoms, names[k]) == Some(i);
        assert longer[k] == names[k];
      }
      if IndexOf(Symptoms, name) == Some(i) {
        assert longer[|names|] == name;
      }
    }
  }

  /** The meaning of the vector without reference to list.index: for every slot
      i, features[i] is 1 exactly when i is a slot of the symptom table and the
      symptom at i is among the names; slots 128 to 217 are always 0. */
  lemma {:induction false} EncodingMarksListedSymptoms(names: seq<string>)
    ensures forall i :: 0 <= i < FeatureCount ==>
      (Encoding(names)[i] == 1 <==> i < |Symptoms| && Symptoms[i] in names)
    ensures forall i :: |Symptoms| <= i < FeatureCount ==> Encoding(names)[i] == 0
  {
    SymptomsDistinct();
    forall i | 0 <= i < FeatureCount
      ensures Marked(names, i) <==> i < |Symptoms| && Symptoms[i] in names
    {
      if Marked(names, i) {
        var k :| 0 <= k < |names| && IndexOf(Symptoms, names[k]) == Some(i);
        assert Symptoms[i] == names[k];
      }
      if i < |Symptoms| && Symptoms[i] in names {
        var k :| 0 <= k < |names| && names[k] == Symptoms[i];
        var j := IndexOf(Symptoms, names[k]).value;
        assert Symptoms[j] == Symptoms[i];
      }
    }
  }

  /** The vector depends only on which known symptoms are named: the order of
      the names, repeated names and unknown names make no difference. */
  lemma {:induction false} EncodingDeterminedByKnownNames(a: seq<string>, b: seq<string>)
    requires forall n :: n in Symptoms ==> (n in a <==> n in b)
    ensures Encoding(a) == Encoding(b)
  {
    EncodingMarksListedSymptoms(a);
    EncodingMarksListedSymptoms(b);
    forall i | 0 <= i < FeatureCount
      ensures Encoding(a)[i] == Encoding(b)[i]
    {
      if i < |Symptoms| {
        assert Symptoms[i] in Symptoms;
      }
    }
  }

  /** The hand-built vector of the model smoke test: naming itching and
      skin_rash sets slots 0 and 1 and nothing else. */
  lemma ItchingAndSkinRash()
    ensures Encoding(["itching", "skin_rash"]) == seq(FeatureCount, i => if i < 2 then 1 else 0)
  {
    var zeros := seq(FeatureCount, i => 0);
    EncodingEmpty(zeros);
    assert Symptoms[0] == "itching" && Symptoms[1] == "skin_rash";
    assert IndexOf(Symptoms, "itching") == Some(0);
    assert IndexOf(Symptoms, "skin_rash") == Some(1);
    EncodingAppend([], "itching");
    assert [] + ["itching"] == ["itching"];
    EncodingAppend(["itching"], "skin_rash");
    assert ["itching"] + ["skin_rash"] == ["itching", "skin_rash"];
  }

  /** The encoding loop of the handler: start from 218 zeros and, for each
      name in turn, set the slot of a known symptom or warn about an unknown
      one. Returns the vector and the names warned about. */
  method EncodeSymptoms(names: seq<string>) returns (features: array<int>, unknown: seq<string>)
    ensures fresh(features)
    ensures features[..] == Encoding(names)
    ensures unknown == UnknownNames(names)
  {
    features := new int[FeatureCount](_ => 0);
    unknown := [];
    EncodingEmpty(features[..]);
    for k := 0 to |names|
      invariant features.Length == FeatureCount
      invariant features[..] == Encoding(names[..k])
      invariant unknown == UnknownNames(names[..k])
    {
      var name := names[k];
      EncodingStep(names, k);
      if name in Symptoms {
        var index := IndexOf(Symptoms, name).value;
        features[index] := 1;
      } else {
        unknown := unknown + [name];
      }
    }
    assert names[..|names|] == names;
  }

  lemma EncodingEmpty(zeros: seq<int>)
    requires |zeros| == FeatureCount && forall i :: 0 <= i < FeatureCount ==> zeros[i] == 0
    ensures zeros == Encoding([])
  {
  }

  lemma EncodingStep(names: seq<string>, k: nat)
    requires k < |names|
    ensures names[k] !in Symptoms ==> Encoding(names[..k + 1]) == Encoding(names[..k])
    ensures names[k] in Symptoms ==>
      IndexOf(Symptoms, names[k]).value < FeatureCount &&
      Encoding(names[..k + 1]) == Encoding(names[..k])[IndexOf(Symptoms, names[k]).value := 1]
    ensures names[k] !in Symptoms ==> UnknownNames(names[..k + 1]) == UnknownNames(names[..k]) + [names[k]]
    ensures names[k] in Symptoms ==> UnknownNames(names[..k + 1]) == UnknownNames(names[..k])
  {
    assert names[..k + 1] == names[..k] + [names[k]];
    assert names[..k + 1][..k] == names[..k];
    EncodingAppend(names[..k], names[k]);
  }
}
