/**
 * The normalization preference: three named tiers and a lookup in the user
 * defaults store that falls back to the last tier.
 */
module UserDefaults {
  import opened Common

  /** `Normalization`, an enumeration whose values are the tier names. */
  datatype Normalization = Low | Medium | High {
    /** The member's `.value`. */
    function Value(): string {
      match this
      case Low => "Low"
      case Medium => "Medium"
      case High => "High"
    }
  }

  /** `Normalization(s)`: the member whose value is `s`; Python raises `ValueError` for any other string. */
  function FromValue(s: string): (n: Option<Normalization>)
    ensures n.Some? ==> n.value.Value() == s
    ensures n.None? ==> forall m: Normalization :: m.Value() != s
  {
    if s == "Low" then Some(Low)
    else if s == "Medium" then Some(Medium)
    else if s == "High" then Some(High)
    else None
  }

  /** Every tier survives the trip to its stored string and back. */
  lemma FromValueOfValue(n: Normalization)
    ensures FromValue(n.Value()) == Some(n)
  {
  }

  const NormalizationKey: string := "NormalizationFrequency"

  /** `NORMALIZATION_OPTIONS`, in the order the settings list them. */
  const NormalizationOptions: seq<Normalization> := [Low, Medium, High]

  /** The options are the three tiers, each once, with the values "Low", "Medium", "High". */
  lemma OptionsInOrder()
    ensures |NormalizationOptions| == 3
    ensures forall i, j :: 0 <= i < j < 3 ==> NormalizationOptions[i] != NormalizationOptions[j]
    ensures forall n: Normalization :: n in NormalizationOptions
    ensures NormalizationOptions[0].Value() == "Low" && NormalizationOptions[1].Value() == "Medium"
    ensures NormalizationOptions[2].Value() == "High"
  {
    forall n: Normalization
      ensures n in NormalizationOptions
    {
      match n
      case Low => assert NormalizationOptions[0] == n;
      case Medium => assert NormalizationOptions[1] == n;
      case High => assert NormalizationOptions[2] == n;
    }
  }

  /** `_getDefaultNormalization()`: the last option. */
  function DefaultNormalization(): (n: Normalization)
    ensures n == High && n.Value() == "High"
  {
    NormalizationOptions[|NormalizationOptions| - 1]
  }

  /**
   * `stringForKey_` on the defaults store, modelled as a map from key to stored
   * string; a missing key reads as `None`.
   */
  function StringForKey(defaults: map<string, string>, key: string): Option<string> {
    if key in defaults then Some(defaults[key]) else None
  }

  /**
   * `getNormalization()`: the stored string when it is present and non-empty,
   * otherwise the default tier's value. The stored string is not checked
   * against the options.
   */
  function GetNormalization(defaults: map<string, string>): (s: string)
    ensures s != ""
    ensures NormalizationKey in defaults && defaults[NormalizationKey] != "" ==> s == defaults[NormalizationKey]
    ensures NormalizationKey !in defaults || defaults[NormalizationKey] == "" ==> s == "High"
  {
    match StringForKey(defaults, NormalizationKey)
    case Some(stored) =>
      if stored != "" then stored else DefaultNormalization().Value()
    case None => DefaultNormalization().Value()
  }

  /** When the store holds nothing or one of the tiers' values, the answer names a tier. */
  lemma GetNormalizationNamesTier(defaults: map<string, string>)
    requires NormalizationKey in defaults ==> defaults[NormalizationKey] == "" || FromValue(defaults[NormalizationKey]).Some?
    ensures FromValue(GetNormalization(defaults)).Some?
  {
  }
}
