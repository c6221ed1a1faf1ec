/** The advisory classifier adapter (services/geminiService.ts): its null
    contracts and the casing normalisation of the suggested severity. The
    request itself is a foreign call and is represented by its outcome. */
module GeminiService {
  import opened Wrappers
  import opened Text
  import opened Types

  /** The object parsed from the model's JSON reply. A field that the reply
      leaves out is None. */
  datatype Suggestion = Suggestion(
    suggestedType: Option<string>,
    severity: Option<string>,
    reasoning: Option<string>)

  /** What the model request and `JSON.parse` produce together: a parsed
      object, or an exception. */
  datatype ModelCall = Replied(parsed: Suggestion) | Threw

  /** `process.env.API_KEY` is truthy: set and non-empty. */
  predicate HasKey(apiKey: Option<string>) {
    apiKey.Some? && apiKey.value != ""
  }

  /** `s.toLowerCase()`, then its first character upper-cased and the rest kept. */
  function NormalizeCase(s: string): (r: string)
    ensures |r| == |s|
    ensures |s| > 0 ==> r[0] == UpperChar(LowerChar(s[0]))
    ensures forall k :: 1 <= k < |s| ==> r[k] == LowerChar(s[k])
    ensures Lower(r) == Lower(s)
  {
    var t := Lower(s);
    if t == [] then t
    else
      var r := [UpperChar(t[0])] + t[1..];
      assert Lower(r) == Lower(s) by {
        LowerUpperLower(s[0]);
        LowerIdempotent(s);
        assert forall k :: 0 <= k < |s| ==> Lower(r)[k] == Lower(s)[k];
      }
      r
  }

  /** Normalisation only looks at the lower-cased text, so it ignores case:
      "low", "LOW" and "Low" normalise alike. */
  lemma NormalizeCaseIgnoresCase(a: string, b: string)
    requires Lower(a) == Lower(b)
    ensures NormalizeCase(a) == NormalizeCase(b)
  {
  }

  /** Normalising an already normalised value changes nothing. */
  lemma {:induction false} NormalizeCaseIdempotent(s: string)
    ensures NormalizeCase(NormalizeCase(s)) == NormalizeCase(s)
  {
    NormalizeCaseIgnoresCase(NormalizeCase(s), s);
  }

  /** The three spellings of a known severity become its label. */
  lemma NormalizeCaseExamples()
    ensures NormalizeCase("low") == "Low"
    ensures NormalizeCase("LOW") == "Low"
    ensures NormalizeCase("Low") == "Low"
    ensures NormalizeCase("HIGH") == "High"
    ensures NormalizeCase("medium") == "Medium"
  {
    LowSpelling("low");
    LowSpelling("LOW");
    LowSpelling("Low");
    HighSpelling("HIGH");
    MediumSpelling("medium");
  }

  lemma LowSpelling(s: string)
    requires Lower(s) == "low"
    ensures NormalizeCase(s) == "Low"
  {
    NormalizesTo(s, "low", "Low");
  }

  lemma MediumSpelling(s: string)
    requires Lower(s) == "medium"
    ensures NormalizeCase(s) == "Medium"
  {
    NormalizesTo(s, "medium", "Medium");
  }

  lemma HighSpelling(s: string)
    requires Lower(s) == "high"
    ensures NormalizeCase(s) == "High"
  {
    NormalizesTo(s, "high", "High");
  }

  /** Once the lower-cased form is known, the normalised form is that with its
      first letter upper-cased. */
  lemma NormalizesTo(s: string, lowered: string, r: string)
    requires Lower(s) == lowered && lowered != [] && r == [UpperChar(lowered[0])] + lowered[1..]
    ensures NormalizeCase(s) == r
  {
  }

  /** The lower-case spellings of the three severity labels. */
  predicate IsLoweredLabel(s: string) {
    s == "low" || s == "medium" || s == "high"
  }

  lemma LabelsLowered()
    ensures Lower("Low") == "low" && Lower("Medium") == "medium" && Lower("High") == "high"
  {
  }

  /** Normalisation yields one of the three severity labels exactly when the
      input is one of them up to case; any other value is kept (re-cased),
      not replaced by "Medium". */
  lemma {:induction false} NormalizedIsLabelIff(s: string)
    ensures IsSeverityLabel(NormalizeCase(s)) <==> IsLoweredLabel(Lower(s))
  {
    if IsSeverityLabel(NormalizeCase(s)) {
      LabelsLowered();
    }
    if IsLoweredLabel(Lower(s)) {
      LabelIsFixpoint(s);
    }
  }

  lemma {:induction false} LabelIsFixpoint(s: string)
    requires IsLoweredLabel(Lower(s))
    ensures IsSeverityLabel(NormalizeCase(s))
  {
    if Lower(s) == "low" {
      LowSpelling(s);
    } else if Lower(s) == "medium" {
      MediumSpelling(s);
    } else {
      HighSpelling(s);
    }
  }

  /** An unrecognised severity survives normalisation: "urgent" becomes "Urgent". */
  lemma UnrecognisedSeverityKept()
    ensures NormalizeCase("urgent") == "Urgent"
    ensures !IsSeverityLabel(NormalizeCase("urgent"))
  {
    assert Lower("urgent") == "urgent";
    NormalizesTo("urgent", "urgent", "Urgent");
  }

  /** `if (result.severity)`: an absent or empty severity is left as it is;
      any other is normalised. */
  function NormalizeSeverity(severity: Option<string>): (r: Option<string>)
    ensures r.None? <==> severity.None?
    ensures severity == Some("") ==> r == severity
    ensures severity.Some? && severity.value != "" ==>
      |r.value| == |severity.value| && Lower(r.value) == Lower(severity.value)
      && NormalizeCase(r.value) == r.value
  {
    if severity.Some? && severity.value != "" then
      NormalizeCaseIdempotent(severity.value);
      Some(NormalizeCase(severity.value))
    else severity
  }

  /** `analyzeIncident(description)`: null without an API key (the model is not
      called), null when the call or the parse throws, otherwise the parsed
      object with its severity normalised. The description only goes into the
      prompt, which is not modelled. */
  function AnalyzeIncident(apiKey: Option<string>, call: ModelCall): (r: Option<Suggestion>)
    ensures !HasKey(apiKey) ==> r == None
    ensures call.Threw? ==> r == None
    ensures r.Some? <==> HasKey(apiKey) && call.Replied?
    ensures r.Some? ==>
      && r.value.suggestedType == call.parsed.suggestedType
      && r.value.reasoning == call.parsed.reasoning
      && (call.parsed.severity.None? ==> r.value.severity.None?)
      && (call.parsed.severity == Some("") ==> r.value.severity == Some(""))
      && (call.parsed.severity.Some? && call.parsed.severity.value != "" ==>
            r.value.severity.Some? && Lower(r.value.severity.value) == Lower(call.parsed.severity.value))
  {
    if !HasKey(apiKey) then None
    else match call
      case Threw => None
      case Replied(parsed) => Some(parsed.(severity := NormalizeSeverity(parsed.severity)))
  }

  /** Without a key the outcome of the model call is irrelevant: the call is
      never made. */
  lemma {:induction false} NoKeyNeverCalls(apiKey: Option<string>, c1: ModelCall, c2: ModelCall)
    requires !HasKey(apiKey)
    ensures AnalyzeIncident(apiKey, c1) == AnalyzeIncident(apiKey, c2) == None
  {
  }

  /** A returned severity is already normalised: normalising it again is a no-op. */
  lemma {:induction false} ReturnedSeverityNormalized(apiKey: Option<string>, call: ModelCall)
    requires AnalyzeIncident(apiKey, call).Some?
    requires AnalyzeIncident(apiKey, call).value.severity.Some?
    ensures var v := AnalyzeIncident(apiKey, call).value.severity.value;
      NormalizeCase(v) == v
  {
    var v := call.parsed.severity.value;
    if v != "" {
      NormalizeCaseIdempotent(v);
    }
  }
}
