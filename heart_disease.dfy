/**
 * The model metadata the application loads: the column lists and the categorical
 * mappings of the heart-disease pipeline (train_model.py, lines 16-17 and 21-46),
 * with examples of how the row builder treats them.
 */
module HeartDisease {
  import opened Wrappers
  import opened Text
  import opened FeatureRow
  import opened Home

  const CategoricalCols: seq<string> := ["sex", "cp", "fbs", "restecg", "exang", "slope", "thal"]
  const NumericCols: seq<string> := ["age", "trestbps", "chol", "thalch", "ca", "oldpeak"]

  // Each mapping in declaration order: the first label with a matching prefix wins.
  const Sex: Mapping := [("male", 1), ("female", 0)]
  const ChestPain: Mapping := [("typical angina", 0), ("atypical angina", 1), ("non-anginal", 2), ("asymptomatic", 3)]
  const Boolean: Mapping := [("true", 1), ("false", 0)]
  const RestEcg: Mapping := [("normal", 0), ("lv hypertrophy", 1), ("st-t abnormality", 2)]
  const Slope: Mapping := [("upsloping", 0), ("flat", 1), ("downsloping", 2)]
  const Thal: Mapping := [("normal", 0), ("fixed defect", 1), ("reversable defect", 2)]

  const Mappings: map<string, Mapping> := map[
    "sex" := Sex, "cp" := ChestPain, "fbs" := Boolean, "restecg" := RestEcg,
    "exang" := Boolean, "slope" := Slope, "thal" := Thal
  ]

  const Meta: Config := Config(CategoricalCols, NumericCols, Mappings)

  lemma ColumnsAreDistinct()
    ensures Distinct(Columns(Meta))
    ensures |Columns(Meta)| == 13
  {
  }

  /** Input that normalises to a word starting with a non-digit is non-blank and not numeric. */
  lemma NormalisesToWord(raw: string, w: string)
    requires Lower(Strip(raw)) == w && w != [] && !IsDigit(w[0])
    ensures Strip(raw) != [] && !IsDigits(Strip(raw))
  {
    var v := Strip(raw);
    assert |v| == |w|;
    assert LowerChar(v[0]) == w[0];
  }

  /** A label whose first |p| characters lower-case to `p` matches `p`. */
  lemma LabelStarts(e: (string, int), p: string)
    requires |p| <= |e.0| && forall i :: 0 <= i < |p| ==> LowerChar(e.0[i]) == p[i]
    ensures LabelMatches(e, p)
  {
    assert Lower(e.0)[..|p|] == p;
  }

  /** A label that is shorter than `p`, or differs from it at position `i`, does not match `p`. */
  lemma LabelDiffers(e: (string, int), p: string, i: nat)
    requires i < |p| && (i < |e.0| ==> LowerChar(e.0[i]) != p[i])
    ensures !LabelMatches(e, p)
  {
    if |p| <= |e.0| {
      assert Lower(e.0)[..|p|][i] == LowerChar(e.0[i]);
    }
  }

  /** Every categorical column of the metadata has its mapping; the numeric ones have none. */
  lemma MetaMappings()
    ensures forall c :: c in CategoricalCols <==> c in Meta.mappings
    ensures Meta.mappings["sex"] == Sex && Meta.mappings["cp"] == ChestPain
    ensures Meta.mappings["fbs"] == Boolean && Meta.mappings["exang"] == Boolean
    ensures Meta.mappings["restecg"] == RestEcg && Meta.mappings["slope"] == Slope && Meta.mappings["thal"] == Thal
  {
  }

  // The examples below hold for any configuration that maps the column as the
  // metadata does (MetaMappings shows that Meta is one), and for any input that
  // normalises to the given word, whatever its letter case and padding.

  /** "m" abbreviates "male" (code 1). */
  lemma SexM(cfg: Config, raw: string, parse: NumberParser)
    requires "sex" in cfg.mappings && cfg.mappings["sex"] == Sex
    requires Lower(Strip(raw)) == "m"
    ensures Resolve(cfg, "sex", raw, parse) == Ok(Code(1))
  {
    NormalisesToWord(raw, "m");
    LabelStarts(Sex[0], "m");
    FirstMatchingLabelResolves(cfg, "sex", raw, parse, 0);
  }

  /** "fem" abbreviates "female" (code 0); it is no prefix of "male". */
  lemma SexFem(cfg: Config, raw: string, parse: NumberParser)
    requires "sex" in cfg.mappings && cfg.mappings["sex"] == Sex
    requires Lower(Strip(raw)) == "fem"
    ensures Resolve(cfg, "sex", raw, parse) == Ok(Code(0))
  {
    NormalisesToWord(raw, "fem");
    LabelDiffers(Sex[0], "fem", 0);
    LabelStarts(Sex[1], "fem");
    FirstMatchingLabelResolves(cfg, "sex", raw, parse, 1);
  }

  /** "typical" abbreviates "typical angina" (code 0); it is no prefix of "atypical angina". */
  lemma ChestPainTypical(cfg: Config, raw: string, parse: NumberParser)
    requires "cp" in cfg.mappings && cfg.mappings["cp"] == ChestPain
    requires Lower(Strip(raw)) == "typical"
    ensures Resolve(cfg, "cp", raw, parse) == Ok(Code(0))
  {
    NormalisesToWord(raw, "typical");
    LabelStarts(ChestPain[0], "typical");
    FirstMatchingLabelResolves(cfg, "cp", raw, parse, 0);
  }

  /** "a" starts both "atypical angina" (code 1) and "asymptomatic" (code 3): the earlier label wins. */
  lemma ChestPainA(cfg: Config, raw: string, parse: NumberParser)
    requires "cp" in cfg.mappings && cfg.mappings["cp"] == ChestPain
    requires Lower(Strip(raw)) == "a"
    ensures Resolve(cfg, "cp", raw, parse) == Ok(Code(1))
  {
    NormalisesToWord(raw, "a");
    LabelDiffers(ChestPain[0], "a", 0);
    LabelStarts(ChestPain[1], "a");
    FirstMatchingLabelResolves(cfg, "cp", raw, parse, 1);
  }

  /** "as" selects "asymptomatic" (code 3), the first label starting with it. */
  lemma ChestPainAs(cfg: Config, raw: string, parse: NumberParser)
    requires "cp" in cfg.mappings && cfg.mappings["cp"] == ChestPain
    requires Lower(Strip(raw)) == "as"
    ensures Resolve(cfg, "cp", raw, parse) == Ok(Code(3))
  {
    NormalisesToWord(raw, "as");
    AsLabels();
    FirstMatchingLabelResolves(cfg, "cp", raw, parse, 3);
  }

  lemma AsLabels()
    ensures forall i :: 0 <= i < 3 ==> !LabelMatches(ChestPain[i], "as")
    ensures LabelMatches(ChestPain[3], "as")
  {
    LabelDiffers(ChestPain[0], "as", 0);
    LabelDiffers(ChestPain[1], "as", 1);
    LabelDiffers(ChestPain[2], "as", 0);
    LabelStarts(ChestPain[3], "as");
  }

  /** "false" selects code 0 in the boolean mapping of `fbs` and `exang`; it is no prefix of "true". */
  lemma BooleanFalse(cfg: Config, col: string, raw: string, parse: NumberParser)
    requires col in cfg.mappings && cfg.mappings[col] == Boolean
    requires Lower(Strip(raw)) == "false"
    ensures Resolve(cfg, col, raw, parse) == Ok(Code(0))
  {
    NormalisesToWord(raw, "false");
    LabelDiffers(Boolean[0], "false", 0);
    LabelStarts(Boolean[1], "false");
    FirstMatchingLabelResolves(cfg, col, raw, parse, 1);
  }

  /** Resting ECG "normal" gives code 0. */
  lemma RestEcgNormal(cfg: Config, raw: string, parse: NumberParser)
    requires "restecg" in cfg.mappings && cfg.mappings["restecg"] == RestEcg
    requires Lower(Strip(raw)) == "normal"
    ensures Resolve(cfg, "restecg", raw, parse) == Ok(Code(0))
  {
    NormalisesToWord(raw, "normal");
    LabelStarts(RestEcg[0], "normal");
    FirstMatchingLabelResolves(cfg, "restecg", raw, parse, 0);
  }

  /** Slope "flat" gives code 1; it is no prefix of "upsloping". */
  lemma SlopeFlat(cfg: Config, raw: string, parse: NumberParser)
    requires "slope" in cfg.mappings && cfg.mappings["slope"] == Slope
    requires Lower(Strip(raw)) == "flat"
    ensures Resolve(cfg, "slope", raw, parse) == Ok(Code(1))
  {
    NormalisesToWord(raw, "flat");
    LabelDiffers(Slope[0], "flat", 0);
    LabelStarts(Slope[1], "flat");
    FirstMatchingLabelResolves(cfg, "slope", raw, parse, 1);
  }

  /** Thal "normal" gives code 0. */
  lemma ThalNormal(cfg: Config, raw: string, parse: NumberParser)
    requires "thal" in cfg.mappings && cfg.mappings["thal"] == Thal
    requires Lower(Strip(raw)) == "normal"
    ensures Resolve(cfg, "thal", raw, parse) == Ok(Code(0))
  {
    NormalisesToWord(raw, "normal");
    LabelStarts(Thal[0], "normal");
    FirstMatchingLabelResolves(cfg, "thal", raw, parse, 0);
  }

  /** "males" extends "male" and is no prefix of "female", so it matches no label and is rejected. */
  lemma SexMales(cfg: Config, raw: string, parse: NumberParser)
    requires "sex" in cfg.mappings && cfg.mappings["sex"] == Sex
    requires Lower(Strip(raw)) == "males"
    ensures Resolve(cfg, "sex", raw, parse) == Err(InvalidValue("sex", Strip(raw)))
  {
    NormalisesToWord(raw, "males");
    LabelDiffers(Sex[0], "males", 4);
    LabelDiffers(Sex[1], "males", 0);
    MappedInputResolution(cfg, "sex", raw, parse);
  }

  /**
   * Numeric text on a mapped column passes through unchecked: sex "7" is stored as
   * code 7 although the mapping only has the codes 0 and 1.
   */
  lemma SexSeven(cfg: Config, parse: NumberParser)
    requires "sex" in cfg.mappings
    ensures Resolve(cfg, "sex", "7", parse) == Ok(Code(7))
  {
    assert "" + ShowNat(7) + "" == "7";
    NumberPassThrough(cfg, "sex", "", 7, "", parse);
  }

  /** Leading zeros are read as a decimal number: sex "07" is stored as code 7 as well. */
  lemma SexZeroSeven(cfg: Config, parse: NumberParser)
    requires "sex" in cfg.mappings
    ensures Resolve(cfg, "sex", "07", parse) == Ok(Code(7))
  {
    assert "" + "07" + "" == "07";
    assert IsDigits("07") && DigitsValue("07") == 7;
    DigitsPassThrough(cfg, "sex", "", "07", "", parse);
  }
}
