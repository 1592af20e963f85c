/** The two constant tables of the prediction endpoint: the 41 disease names,
    indexed by the classifier's class number, and the 128 symptom names, whose
    positions are the slots of the feature vector. */
module Tables {

  /** Length of the feature vector the classifier was trained on. Only the first
      |Symptoms| slots can ever be set; the rest stay 0. */
  const FeatureCount: nat := 218

  /** Class number c of the classifier is the disease Diseases[c]. */
  const Diseases: seq<string> := [
    "(vertigo) Paroymsal  Positional Vertigo", "AIDS", "Acne",
    "Alcoholic hepatitis", "Allergy", "Arthritis",
    "Bronchial Asthma", "Cervical spondylosis", "Chicken pox",
    "Chronic cholestasis", "Common Cold", "Dengue",
    "Diabetes", "Dimorphic hemmorhoids(piles)", "Drug Reaction",
    "Fungal infection", "GERD", "Gastroenteritis",
    "Heart attack", "Hepatitis B", "Hepatitis C",
    "Hepatitis D", "Hepatitis E", "Hypertension",
    "Hyperthyroidism", "Hypoglycemia", "Hypothyroidism",
    "Impetigo", "Jaundice", "Malaria",
    "Migraine", "Osteoarthristis", "Paralysis (brain hemorrhage)",
    "Peptic ulcer diseae", "Pneumonia", "Psoriasis",
    "Tuberculosis", "Typhoid", "Urinary tract infection",
    "Varicose veins", "hepatitis A"
  ]

  /** The canonical symptom list, in feature-slot order. It is written as eight
      blocks of sixteen names so that the absence of duplicates can be checked
      block against block (see SymptomsDistinct). */
  const Symptoms: seq<string> :=
    SymptomBlock0 + SymptomBlock1 + SymptomBlock2 + SymptomBlock3 +
    SymptomBlock4 + SymptomBlock5 + SymptomBlock6 + SymptomBlock7

  const SymptomBlock0: seq<string> := [
    "itching", "skin_rash", "nodal_skin_eruptions", "continuous_sneezing",
    "shivering", "chills", "joint_pain", "stomach_pain",
    "acidity", "ulcers_on_tongue", "muscle_wasting", "vomiting",
    "burning_micturition", "fatigue", "weight_gain", "anxiety"
  ]

  const SymptomBlock1: seq<string> := [
    "cold_hands_and_feets", "mood_swings", "weight_loss", "restlessness",
    "lethargy", "patches_in_throat", "irregular_sugar_level", "cough",
    "high_fever", "sunken_eyes", "breathlessness", "sweating",
    "dehydration", "indigestion", "headache", "yellowish_skin"
  ]

  const SymptomBlock2: seq<string> := [
    "dark_urine", "nausea", "loss_of_appetite", "pain_behind_the_eyes",
    "back_pain", "constipation", "abdominal_pain", "diarrhoea",
    "mild_fever", "yellow_urine", "yellowing_of_eyes", "acute_liver_failure",
    "fluid_overload", "swelling_of_stomach", "swelled_lymph_nodes", "malaise"
  ]

  const SymptomBlock3: seq<string> := [
    "blurred_and_distorted_vision", "phlegm", "throat_irritation", "redness_of_eyes",
    "sinus_pressure", "runny_nose", "congestion", "chest_pain",
    "weakness_in_limbs", "fast_heart_rate", "pain_during_bowel_movements", "pain_in_anal_region",
    "bloody_stool", "irritation_in_anus", "neck_pain", "dizziness"
  ]

  const SymptomBlock4: seq<string> := [
    "cramps", "bruising", "obesity", "swollen_legs",
    "swollen_blood_vessels", "puffy_face_and_eyes", "enlarged_thyroid", "brittle_nails",
    "swollen_extremeties", "excessive_hunger", "extra_marital_contacts", "drying_and_tingling_lips",
    "slurred_speech", "knee_pain", "hip_joint_pain", "muscle_weakness"
  ]

  const SymptomBlock5: seq<string> := [
    "stiff_neck", "swelling_joints", "movement_stiffness", "spinning_movements",
    "loss_of_balance", "unsteadiness", "weakness_of_one_body_side", "loss_of_smell",
    "bladder_discomfort", "continuous_feel_of_urine", "passage_of_gases", "internal_itching",
    "toxic_look_(typhos)", "depression", "irritability", "muscle_pain"
  ]

  const SymptomBlock6: seq<string> := [
    "altered_sensorium", "red_spots_over_body", "belly_pain", "abnormal_menstruation",
    "watering_from_eyes", "increased_appetite", "polyuria", "family_history",
    "mucoid_sputum", "rusty_sputum", "lack_of_concentration", "visual_disturbances",
    "receiving_blood_transfusion", "receiving_unsterile_injections", "coma", "stomach_bleeding"
  ]

  const SymptomBlock7: seq<string> := [
    "distention_of_abdomen", "history_of_alcohol_consumption", "blood_in_sputum", "prominent_veins_on_calf",
    "palpitations", "painful_walking", "pus_filled_pimples", "blackheads",
    "scurring", "skin_peeling", "silver_like_dusting", "small_dents_in_nails",
    "inflammatory_nails", "blister", "red_sore_around_nose", "yellow_crust_ooze"
  ]

  /** No name occurs twice in s. */
  predicate Distinct(s: seq<string>) {
    forall i, j :: 0 <= i < j < |s| ==> s[i] != s[j]
  }

  /** No name occurs both in a and in b. */
  predicate Disjoint(a: seq<string>, b: seq<string>) {
    forall i, j :: 0 <= i < |a| && 0 <= j < |b| ==> a[i] != b[j]
  }

  lemma DistinctConcat(a: seq<string>, b: seq<string>)
    requires Distinct(a) && Distinct(b) && Disjoint(a, b)
    ensures Distinct(a + b)
  {
  }

  lemma DisjointConcat(a: seq<string>, b: seq<string>, c: seq<string>)
    requires Disjoint(a, c) && Disjoint(b, c)
    ensures Disjoint(a + b, c)
  {
  }

  lemma DiseasesDistinct()
    ensures |Diseases| == 41 && Distinct(Diseases)
  {
    DiseasesLowDistinct();
    DiseasesHighDistinct();
    DiseasesLowHighDisjoint();
  }

  lemma DiseasesLowDistinct()
    ensures forall i, j :: 0 <= i < j < 20 ==> Diseases[i] != Diseases[j]
  {
  }

  lemma DiseasesHighDistinct()
    ensures forall i, j :: 20 <= i < j < 41 ==> Diseases[i] != Diseases[j]
  {
  }

  lemma DiseasesLowHighDisjoint()
    ensures forall i, j :: 0 <= i < 20 <= j < 41 ==> Diseases[i] != Diseases[j]
  {
  }

  /** The symptom table has 128 names and none of them occurs twice, so a
      name's first position is its only position. */
  lemma SymptomsDistinct()
    ensures |Symptoms| == 128 && Distinct(Symptoms)
  {
    Block0Distinct(); Block1Distinct(); Block2Distinct(); Block3Distinct();
    Block4Distinct(); Block5Distinct(); Block6Distinct(); Block7Distinct();
    var s1 := SymptomBlock0;
    Blocks01Disjoint();
    DistinctConcat(s1, SymptomBlock1);
    var s2 := s1 + SymptomBlock1;
    Blocks02Disjoint(); Blocks12Disjoint();
    DisjointConcat(SymptomBlock0, SymptomBlock1, SymptomBlock2);
    DistinctConcat(s2, SymptomBlock2);
    var s3 := s2 + SymptomBlock2;
    Blocks03Disjoint(); Blocks13Disjoint(); Blocks23Disjoint();
    DisjointConcat(SymptomBlock0, SymptomBlock1, SymptomBlock3);
    DisjointConcat(s2, SymptomBlock2, SymptomBlock3);
    DistinctConcat(s3, SymptomBlock3);
    var s4 := s3 + SymptomBlock3;
    Blocks04Disjoint(); Blocks14Disjoint(); Blocks24Disjoint(); Blocks34Disjoint();
    DisjointConcat(SymptomBlock0, SymptomBlock1, SymptomBlock4);
    DisjointConcat(s2, SymptomBlock2, SymptomBlock4);
    DisjointConcat(s3, SymptomBlock3, SymptomBlock4);
    DistinctConcat(s4, SymptomBlock4);
    var s5 := s4 + SymptomBlock4;
    Blocks05Disjoint(); Blocks15Disjoint(); Blocks25Disjoint(); Blocks35Disjoint(); Blocks45Disjoint();
    DisjointConcat(SymptomBlock0, SymptomBlock1, SymptomBlock5);
    DisjointConcat(s2, SymptomBlock2, SymptomBlock5);
    DisjointConcat(s3, SymptomBlock3, SymptomBlock5);
    DisjointConcat(s4, SymptomBlock4, SymptomBlock5);
    DistinctConcat(s5, SymptomBlock5);
    var s6 := s5 + SymptomBlock5;
    Blocks06Disjoint(); Blocks16Disjoint(); Blocks26Disjoint(); Blocks36Disjoint(); Blocks46Disjoint();
    Blocks56Disjoint();
    DisjointConcat(SymptomBlock0, SymptomBlock1, SymptomBlock6);
    DisjointConcat(s2, SymptomBlock2, SymptomBlock6);
    DisjointConcat(s3, SymptomBlock3, SymptomBlock6);
    DisjointConcat(s4, SymptomBlock4, SymptomBlock6);
    DisjointConcat(s5, SymptomBlock5, SymptomBlock6);
    DistinctConcat(s6, SymptomBlock6);
    var s7 := s6 + SymptomBlock6;
    Blocks07Disjoint(); Blocks17Disjoint(); Blocks27Disjoint(); Blocks37Disjoint(); Blocks47Disjoint();
    Blocks57Disjoint(); Blocks67Disjoint();
    DisjointConcat(SymptomBlock0, SymptomBlock1, SymptomBlock7);
    DisjointConcat(s2, SymptomBlock2, SymptomBlock7);
    DisjointConcat(s3, SymptomBlock3, SymptomBlock7);
    DisjointConcat(s4, SymptomBlock4, SymptomBlock7);
    DisjointConcat(s5, SymptomBlock5, SymptomBlock7);
    DisjointConcat(s6, SymptomBlock6, SymptomBlock7);
    DistinctConcat(s7, SymptomBlock7);
  }

  lemma Block0Distinct() ensures Distinct(SymptomBlock0) {}
  lemma Block1Distinct() ensures Distinct(SymptomBlock1) {}
  lemma Block2Distinct() ensures Distinct(SymptomBlock2) {}
  lemma Block3Distinct() ensures Distinct(SymptomBlock3) {}
  lemma Block4Distinct() ensures Distinct(SymptomBlock4) {}
  lemma Block5Distinct() ensures Distinct(SymptomBlock5) {}
  lemma Block6Distinct() ensures Distinct(SymptomBlock6) {}
  lemma Block7Distinct() ensures Distinct(SymptomBlock7) {}

  lemma Blocks01Disjoint() ensures Disjoint(SymptomBlock0, SymptomBlock1) {}

  lemma Blocks02Disjoint() ensures Disjoint(SymptomBlock0, SymptomBlock2) {}

  lemma Blocks03Disjoint() ensures Disjoint(SymptomBlock0, SymptomBlock3) {}

  lemma Blocks04Disjoint() ensures Disjoint(SymptomBlock0, SymptomBlock4) {}

  lemma Blocks05Disjoint() ensures Disjoint(SymptomBlock0, SymptomBlock5) {}

  lemma Blocks06Disjoint() ensures Disjoint(SymptomBlock0, SymptomBlock6) {}

  lemma Blocks07Disjoint() ensures Disjoint(SymptomBlock0, SymptomBlock7) {}

  lemma Blocks12Disjoint() ensures Disjoint(SymptomBlock1, SymptomBlock2) {}

  lemma Blocks13Disjoint() ensures Disjoint(SymptomBlock1, SymptomBlock3) {}

  lemma Blocks14Disjoint() ensures Disjoint(SymptomBlock1, SymptomBlock4) {}

  lemma Blocks15Disjoint() ensures Disjoint(SymptomBlock1, SymptomBlock5) {}

  lemma Blocks16Disjoint() ensures Disjoint(SymptomBlock1, SymptomBlock6) {}

  lemma Blocks17Disjoint() ensures Disjoint(SymptomBlock1, SymptomBlock7) {}

  lemma Blocks23Disjoint() ensures Disjoint(SymptomBlock2, SymptomBlock3) {}

  lemma Blocks24Disjoint() ensures Disjoint(SymptomBlock2, SymptomBlock4) {}

  lemma Blocks25Disjoint() ensures Disjoint(SymptomBlock2, SymptomBlock5) {}

  lemma Blocks26Disjoint() ensures Disjoint(SymptomBlock2, SymptomBlock6) {}

  lemma Blocks27Disjoint() ensures Disjoint(SymptomBlock2, SymptomBlock7) {}

  lemma Blocks34Disjoint() ensures Disjoint(SymptomBlock3, SymptomBlock4) {}

  lemma Blocks35Disjoint() ensures Disjoint(SymptomBlock3, SymptomBlock5) {}

  lemma Blocks36Disjoint() ensures Disjoint(SymptomBlock3, SymptomBlock6) {}

  lemma Blocks37Disjoint() ensures Disjoint(SymptomBlock3, SymptomBlock7) {}

  lemma Blocks45Disjoint() ensures Disjoint(SymptomBlock4, SymptomBlock5) {}

  lemma Blocks46Disjoint() ensures Disjoint(SymptomBlock4, SymptomBlock6) {}

  lemma Blocks47Disjoint() ensures Disjoint(SymptomBlock4, SymptomBlock7) {}

  lemma Blocks56Disjoint() ensures Disjoint(SymptomBlock5, SymptomBlock6) {}

  lemma Blocks57Disjoint() ensures Disjoint(SymptomBlock5, SymptomBlock7) {}

  lemma Blocks67Disjoint() ensures Disjoint(SymptomBlock6, SymptomBlock7) {}
}
