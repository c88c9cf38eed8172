/**
 Event Index: a case-insensitive lookup of the event phase or live scenario
 label in a fixed table, with 0.2 for any label the table does not list.
 */
module EventIndex {

  /** A label that may be missing; a missing label reads as the empty string. */
  datatype Option<T> = None | Some(value: T)

  predicate IsUpperAscii(c: char)
  {
    'A' <= c <= 'Z'
  }

  function LowerChar(c: char): (d: char)
    ensures !IsUpperAscii(d)
    ensures !IsUpperAscii(c) ==> d == c
    ensures IsUpperAscii(c) ==> 'a' <= d <= 'z' && d as int - 'a' as int == c as int - 'A' as int
  {
    if IsUpperAscii(c) then (c as int + 32) as char else c
  }

  /** ASCII lower-casing, character by character. */
  function Lower(s: string): (r: string)
    ensures |r| == |s|
    ensures forall i :: 0 <= i < |r| ==> !IsUpperAscii(r[i])
    ensures forall i :: 0 <= i < |s| ==> r[i] == LowerChar(s[i])
  {
    seq(|s|, i requires 0 <= i < |s| => LowerChar(s[i]))
  }

  /** A string without upper-case ASCII letters is its own lower-case form. */
  lemma LowerOfLowerCase(s: string)
    requires forall i :: 0 <= i < |s| ==> !IsUpperAscii(s[i])
    ensures Lower(s) == s
  {}

  lemma LowerIdempotent(s: string)
    ensures Lower(Lower(s)) == Lower(s)
  {
    LowerOfLowerCase(Lower(s));
  }

  const DefaultEi: real := 0.2

  /** Baseline ritual phases followed by the live-monitoring scenarios. */
  const PhaseTable: map<string, real> := map[
    "normal" := 0.15,
    "pre_event" := 0.15,
    "post_event" := 0.25,
    "snan_window" := 0.65,
    "shahi_snan" := 0.9,
    "procession" := 0.7,
    "morning_rush" := 0.45,
    "evening_rush" := 0.5,
    "festival_peak" := 0.8,
    "emergency_situation" := 0.95
  ]

  /** The lookup key: the lower-cased label, or "" for a missing one. */
  function Key(phase: Option<string>): (k: string)
    ensures phase.None? ==> k == ""
    ensures phase.Some? ==> |k| == |phase.value|
                            && forall i :: 0 <= i < |k| ==> k[i] == LowerChar(phase.value[i])
    ensures forall i :: 0 <= i < |k| ==> !IsUpperAscii(k[i])
  {
    match phase
    case None => ""
    case Some(s) => Lower(s)
  }

  function NormalizeEi(phase: Option<string>): (r: real)
    ensures 0.15 <= r <= 0.95
  {
    var key := Key(phase);
    if key in PhaseTable then PhaseTable[key] else DefaultEi
  }

  /** No listed phase has the default value, so the default answer is given
      exactly for the labels the table does not list. */
  lemma DefaultExactlyWhenUnlisted(phase: Option<string>)
    ensures NormalizeEi(phase) == DefaultEi <==> Key(phase) !in PhaseTable
  {}

  /** Lower-casing a label first changes nothing. */
  lemma CaseInsensitive(s: string)
    ensures NormalizeEi(Some(s)) == NormalizeEi(Some(Lower(s)))
  {
    LowerIdempotent(s);
  }

  lemma MissingLabelIsDefault()
    ensures NormalizeEi(None) == DefaultEi
    ensures NormalizeEi(Some("")) == DefaultEi
  {
    assert Lower("") == "";
  }

  lemma ShahiSnanExamples()
    ensures NormalizeEi(Some("SHAHI_SNAN")) == 0.9
    ensures NormalizeEi(Some("shahi_snan")) == 0.9
    ensures NormalizeEi(Some("unrecognized_phase")) == DefaultEi
  {
    assert Lower("SHAHI_SNAN") == "shahi_snan";
    LowerOfLowerCase("shahi_snan");
    LowerOfLowerCase("unrecognized_phase");
  }
}
