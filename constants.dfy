/** The constant tables of constants.ts and its phone-number pattern. */
module Constants {
  import opened Types

  /** The states offered by the manual location entry, each with its LGAs. */
  const NigerianStates: map<string, seq<string>> := map[
    "Lagos" := ["Ikeja", "Alimosho", "Kosofe", "Mushin", "Oshodi-Isolo", "Surulere", "Lagos Island"],
    "Kano" := ["Kano Municipal", "Fagge", "Dala", "Gwale", "Tarauni"],
    "Enugu" := ["Enugu North", "Enugu South", "Enugu East", "Udi", "Nsukka"],
    "Rivers" := ["Port Harcourt", "Obio-Akpor"],
    "Abuja (FCT)" := ["Abuja Municipal Area Council (AMAC)"]
  ]

  lemma NigerianStatesShape()
    ensures |NigerianStates| == 5
    ensures forall s :: s in NigerianStates ==> |NigerianStates[s]| > 0
  {
    assert NigerianStates.Keys == {"Lagos", "Kano", "Enugu", "Rivers", "Abuja (FCT)"};
  }

  /** `Object.values` of the three enumerations, in declaration order. */
  const SymptomOptions: seq<Symptom> := [ChestPain, ShortnessOfBreath, Dizziness]
  const DurationOptions: seq<Duration> := [LessThan15, Between15And60, MoreThan60]
  const ResolutionOptions: seq<Resolution> :=
    [ReferredToClinic, AdvisedToMonitor, EmergencyServicesAlerted, CouldNotReach]

  lemma OptionListsEnumerateEachValueOnce()
    ensures |SymptomOptions| == 3 && forall s: Symptom :: multiset(SymptomOptions)[s] == 1
    ensures |DurationOptions| == 3 && forall d: Duration :: multiset(DurationOptions)[d] == 1
    ensures |ResolutionOptions| == 4 && forall r: Resolution :: multiset(ResolutionOptions)[r] == 1
  {
    assert multiset(SymptomOptions) == multiset{ChestPain, ShortnessOfBreath, Dizziness};
    assert multiset(DurationOptions) == multiset{LessThan15, Between15And60, MoreThan60};
    assert multiset(ResolutionOptions) ==
      multiset{ReferredToClinic, AdvisedToMonitor, EmergencyServicesAlerted, CouldNotReach};
    forall s: Symptom ensures multiset(SymptomOptions)[s] == 1 {
      match s
      case ChestPain =>
      case ShortnessOfBreath =>
      case Dizziness =>
    }
    forall d: Duration ensures multiset(DurationOptions)[d] == 1 {
      match d
      case LessThan15 =>
      case Between15And60 =>
      case MoreThan60 =>
    }
    forall r: Resolution ensures multiset(ResolutionOptions)[r] == 1 {
      match r
      case ReferredToClinic =>
      case AdvisedToMonitor =>
      case EmergencyServicesAlerted =>
      case CouldNotReach =>
    }
  }

  // ---------------------------------------------------------------------------
  // PHONE_REGEX = /^\+234[789][01]\d{8}$/, written out position by position.
  // ---------------------------------------------------------------------------

  /** One position of an anchored pattern without repetition or alternation. */
  datatype CharClass = Literal(c: char) | OneOf(chars: string) | Digit

  predicate Accepts(k: CharClass, c: char) {
    match k
    case Literal(l) => c == l
    case OneOf(cs) => c in cs
    case Digit => '0' <= c <= '9'   // `\d` without the `u` flag is ASCII only
  }

  /** `^\+234[789][01]\d{8}$`: fourteen positions, anchored at both ends. */
  const PhonePattern: seq<CharClass> := [
    Literal('+'), Literal('2'), Literal('3'), Literal('4'),
    OneOf("789"), OneOf("01"),
    Digit, Digit, Digit, Digit, Digit, Digit, Digit, Digit
  ]

  /** The pattern, anchored with `^` and `$`, matches all of `s`. */
  predicate MatchesWhole(p: seq<CharClass>, s: string) {
    if p == [] then s == []
    else s != [] && Accepts(p[0], s[0]) && MatchesWhole(p[1..], s[1..])
  }

  /** `PHONE_REGEX.test(s)`. */
  predicate IsValidPhone(s: string) {
    MatchesWhole(PhonePattern, s)
  }

  /** An anchored match is a position-by-position match of equal length. */
  lemma {:induction false} MatchesWholePointwise(p: seq<CharClass>, s: string)
    ensures MatchesWhole(p, s) <==> |s| == |p| && forall i :: 0 <= i < |p| ==> Accepts(p[i], s[i])
  {
    if p != [] && s != [] {
      MatchesWholePointwise(p[1..], s[1..]);
      if |s| == |p| && forall i :: 0 <= i < |p| ==> Accepts(p[i], s[i]) {
        assert forall i :: 0 <= i < |p| - 1 ==> p[1..][i] == p[i + 1] && s[1..][i] == s[i + 1];
      }
    }
  }

  /** What the anchored pattern demands, stated without the pattern. */
  lemma PhoneCharacterization(s: string)
    ensures IsValidPhone(s) <==>
      && |s| == 14
      && s[..4] == "+234"
      && s[4] in "789"
      && s[5] in "01"
      && forall i :: 6 <= i < 14 ==> '0' <= s[i] <= '9'
  {
    MatchesWholePointwise(PhonePattern, s);
    if |s| == 14 {
      assert s[..4] == "+234" <==> s[0] == '+' && s[1] == '2' && s[2] == '3' && s[3] == '4' by {
        if s[0] == '+' && s[1] == '2' && s[2] == '3' && s[3] == '4' {
          assert s[..4] == [s[0], s[1], s[2], s[3]];
        }
      }
    }
  }

  /** The operator digit after the country code is 7, 8 or 9; 5 is refused. */
  lemma PhoneRejectsOperatorFive(s: string)
    requires |s| > 4 && s[4] == '5'
    ensures !IsValidPhone(s)
  {
    PhoneCharacterization(s);
  }

  lemma PhoneAcceptsExample()
    ensures IsValidPhone("+2348012345678")
  {
    var s := "+2348012345678";
    assert |s| == |PhonePattern|;
    forall i | 0 <= i < 14 ensures Accepts(PhonePattern[i], s[i]) {
      if i >= 6 {
        assert PhonePattern[i] == Digit;
      }
    }
    MatchesWholePointwise(PhonePattern, s);
  }

  /** A 1 after the country code is not an operator digit. */
  lemma PhoneRejectsOperatorOne()
    ensures !IsValidPhone("+2341012345678")
  {
    PhoneCharacterization("+2341012345678");
  }

  /** A local number without the country code is too short. */
  lemma PhoneRejectsLocalForm()
    ensures !IsValidPhone("08012345678")
  {
    PhoneCharacterization("08012345678");
  }

  /** The wizard's initial "+234" is not yet a number. */
  lemma PhoneRejectsCountryCodeAlone()
    ensures !IsValidPhone("+234")
  {
    PhoneCharacterization("+234");
  }
}
