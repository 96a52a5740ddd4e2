/** The family of rules the scripts use to decide whether a house record
    describes an emergency outage: the plain field rule of the monitor and the
    daily summary, the text-marker rule of the emergency preview, the
    schedule-text exclusion rule, the three options weighed by the improved
    detection script, and the three-way classification of the detection
    script. */
module Detection {
  import opened Optional
  import opened Js
  import opened Document

  /** Any of the four emergency fields holds a non-empty string. */
  predicate FieldsPresent(h: HouseRecord) {
    Truthy(h.subType) || Truthy(h.startDate) || Truthy(h.endDate) || Truthy(h.typeCode)
  }

  /** `sub_type` names an emergency: one of the five markers occurs in it. */
  predicate EmergencyText(sub: JsVal) {
    Truthy(sub) &&
    (Contains(sub.s, "Екстренні відключення") || Contains(sub.s, "екстренн") ||
     Contains(sub.s, "Аварійне") || Contains(sub.s, "аварійн") ||
     Contains(sub.s, "без застосування графіку"))
  }

  /** `sub_type` refers to the hourly schedule: one of three phrases occurs in it. */
  predicate ScheduleText(sub: JsVal) {
    Truthy(sub) &&
    (Contains(sub.s, "графіку погодинних") || Contains(sub.s, "Згідно графіку") ||
     Contains(sub.s, "According to"))
  }

  /** `type === "2" || type === "1"`. */
  predicate EmergencyType(code: JsVal) {
    code == Str("2") || code == Str("1")
  }

  datatype Strategy =
    | FieldRule         // populated fields alone
    | MarkerRule        // an emergency marker in the text, and populated fields
    | ExclusionRule     // not schedule text, and populated fields
    | TypeRule          // populated fields and an emergency type code (option 1)
    | NotScheduledRule  // populated fields and not schedule text (option 2)
    | TypeFirstRule     // an emergency type code and populated fields (option 3)

  /** Whether a strategy reports an emergency outage for the record. */
  predicate Flags(s: Strategy, h: HouseRecord) {
    match s
    case FieldRule => FieldsPresent(h)
    case MarkerRule => EmergencyText(h.subType) && FieldsPresent(h)
    case ExclusionRule => !ScheduleText(h.subType) && FieldsPresent(h)
    case TypeRule => FieldsPresent(h) && EmergencyType(h.typeCode)
    case NotScheduledRule => FieldsPresent(h) && !ScheduleText(h.subType)
    case TypeFirstRule => EmergencyType(h.typeCode) && FieldsPresent(h)
  }

  /** How the strategies relate on every record: options 1 and 3 coincide, the
      exclusion rule is option 2, every strategy refines the field rule, and
      since a marker needs a non-empty text the marker rule is the marker test
      alone. */
  lemma StrategyRelations(h: HouseRecord)
    ensures Flags(TypeRule, h) <==> Flags(TypeFirstRule, h)
    ensures Flags(ExclusionRule, h) <==> Flags(NotScheduledRule, h)
    ensures Flags(MarkerRule, h) <==> EmergencyText(h.subType)
    ensures forall s :: Flags(s, h) ==> Flags(FieldRule, h)
  {
  }

  /** The advice printed by the improved detection script. */
  datatype Advice = TypeSaysEmergency | UnscheduledEmergency | ScheduledOnly

  function Recommend(h: HouseRecord): (a: Advice)
    ensures a == ScheduledOnly <==>
              !FieldsPresent(h) || (!EmergencyType(h.typeCode) && ScheduleText(h.subType))
    ensures a == UnscheduledEmergency ==> Flags(ExclusionRule, h) && !EmergencyType(h.typeCode)
  {
    if Flags(TypeRule, h) then TypeSaysEmergency
    else if Flags(NotScheduledRule, h) then UnscheduledEmergency
    else ScheduledOnly
  }

  // ---------------------------------------------------------------------------
  // The three-way classification of a `sub_type` text

  datatype Verdict = Emergency | Scheduled | Unknown

  /** Schedule text in the stricter sense: no emergency marker, and a
      stabilisation phrase, the schedule phrase without "без застосування", or
      "According to". */
  predicate StrictScheduleText(sub: string) {
    !EmergencyText(Str(sub)) && sub != "" &&
    (Contains(sub, "Стабілізаційне відключення") || Contains(sub, "стабілізаційн") ||
     (Contains(sub, "Згідно графіку погодинних") && !Contains(sub, "без застосування")) ||
     Contains(sub, "According to"))
  }

  /** `(isEmergencyOutageText || !isScheduledOutageText) && sub_type !== ""`. */
  predicate ReportsEmergency(sub: string) {
    (EmergencyText(Str(sub)) || !StrictScheduleText(sub)) && sub != ""
  }

  /** The conclusion printed for a text. */
  function Classify(sub: string): (v: Verdict)
    ensures v == Emergency <==> EmergencyText(Str(sub))
    ensures v == Scheduled ==> !EmergencyText(Str(sub)) && sub != ""
    ensures ReportsEmergency(sub) <==> sub != "" && v != Scheduled
  {
    if EmergencyText(Str(sub)) then Emergency
    else if StrictScheduleText(sub) then Scheduled
    else Unknown
  }

  /** The empty text is never an emergency. */
  lemma EmptyIsNoEmergency()
    ensures !ReportsEmergency("") && Classify("") == Unknown
  {
  }

  // ---------------------------------------------------------------------------
  // The texts the scripts are tried on

  /** The emergency text the provider shows during an emergency outage. */
  const RealEmergencyText := "Екстренні відключення" + " (Аварійне без застосування " +
                             "графіку погодинних" + " відключень)"

  /** A stabilisation outage announced along the schedule. */
  const StabilisationText := "Стабілізаці" + "й" + "не відключення (" +
                             "Згідно графіку погодинних" + " відключень)"

  const SimpleEmergencyText := "Аварійне відключення"

  const ScheduleOnlyText := "Згідно графіку погодинних" + " відключень"

  /** A text that matches neither list. */
  const UnlistedText := "Планові роботи"

  function RecordWith(sub: string, typeCode: string): HouseRecord {
    HouseRecord(Str(sub), Undefined, Undefined, Str(typeCode), None)
  }

  lemma RealEmergencyIsMarked()
    ensures EmergencyText(Str(RealEmergencyText))
    ensures ScheduleText(Str(RealEmergencyText))
  {
    FirstAndThird("Екстренні відключення", " (Аварійне без застосування ",
                  "графіку погодинних", " відключень)");
  }

  /** Of four pieces put together, the first and the third occur in the whole. */
  lemma FirstAndThird(a: string, b: string, c: string, d: string)
    ensures Contains(a + b + c + d, a) && Contains(a + b + c + d, c)
  {
    assert a + b + c + d == "" + a + (b + c + d);
    ContainsMiddle("", a, b + c + d);
    ContainsMiddle(a + b, c, d);
  }

  lemma StabilisationLacksMarkers()
    ensures !EmergencyText(Str(StabilisationText))
    ensures !Contains(StabilisationText, "без застосування")
  {
    StabilisationLacksUrgent();
    StabilisationLacksUrgentStem();
    StabilisationLacksAccidentWord();
    StabilisationLacksException();
    StabilisationLacksAccident();
  }

  lemma StabilisationLacksUrgent()
    ensures !Contains(StabilisationText, "Екстренні відключення")
  {
    Lacks(StabilisationText, "Екстренні відключення", 0);
  }

  lemma StabilisationLacksUrgentStem()
    ensures !Contains(StabilisationText, "екстренн")
  {
    Lacks(StabilisationText, "екстренн", 2);
  }

  lemma StabilisationLacksAccidentWord()
    ensures !Contains(StabilisationText, "Аварійне")
  {
    Lacks(StabilisationText, "Аварійне", 0);
  }

  lemma StabilisationLacksException()
    ensures !Contains(StabilisationText, "без застосування графіку")
    ensures !Contains(StabilisationText, "без застосування")
  {
    Lacks(StabilisationText, "без застосування", 6);
    if Contains(StabilisationText, "без застосування графіку") {
      ContainsAt("без застосування графіку", "без застосування", 0);
      ContainsWithin(StabilisationText, "без застосування графіку", "без застосування");
    }
  }

  /** The stabilisation text around its only 'й'. */
  const StabilisationHead := "Стабілізаці"
  const StabilisationTail := "не відключення (" + "Згідно графіку погодинних" + " відключень)"

  lemma StabilisationAnchor()
    ensures StabilisationText == StabilisationHead + ['й'] + StabilisationTail
    ensures 'й' !in StabilisationHead && 'й' !in StabilisationTail
  {
  }

  /** Every character of "аварійн" occurs in the stabilisation text, but its
      only 'й' is not preceded by "авар". */
  lemma StabilisationLacksAccident()
    ensures !Contains(StabilisationText, "аварійн")
  {
    StabilisationAnchor();
    assert StabilisationText[6] == 'і';
    AnchorMismatch(StabilisationHead, 'й', StabilisationTail, "аварійн", 5);
  }

  lemma StabilisationIsNotMarked()
    ensures !EmergencyText(Str(StabilisationText))
    ensures ScheduleText(Str(StabilisationText))
    ensures StrictScheduleText(StabilisationText)
  {
    StabilisationLacksMarkers();
    var p, q := "Стабілізаці" + "й" + "не відключення (", " відключень)";
    ContainsMiddle(p, "Згідно графіку погодинних", q);
    ContainsAt("Згідно графіку погодинних", "Згідно графіку", 0);
    ContainsWithin(StabilisationText, "Згідно графіку погодинних", "Згідно графіку");
  }

  lemma ScheduleOnlyLacksUrgent()
    ensures !Contains(ScheduleOnlyText, "Екстренні відключення")
    ensures !Contains(ScheduleOnlyText, "екстренн")
  {
    Lacks(ScheduleOnlyText, "Екстренні відключення", 0);
    Lacks(ScheduleOnlyText, "екстренн", 2);
  }

  lemma ScheduleOnlyLacksAccident()
    ensures !Contains(ScheduleOnlyText, "Аварійне")
    ensures !Contains(ScheduleOnlyText, "аварійн")
  {
    Lacks(ScheduleOnlyText, "Аварійне", 0);
    Lacks(ScheduleOnlyText, "аварійн", 5);
  }

  lemma ScheduleOnlyLacksException()
    ensures !Contains(ScheduleOnlyText, "без застосування графіку")
    ensures !Contains(ScheduleOnlyText, "без застосування")
  {
    Lacks(ScheduleOnlyText, "без застосування", 0);
    if Contains(ScheduleOnlyText, "без застосування графіку") {
      ContainsAt("без застосування графіку", "без застосування", 0);
      ContainsWithin(ScheduleOnlyText, "без застосування графіку", "без застосування");
    }
  }

  lemma ScheduleOnlyIsNotMarked()
    ensures !EmergencyText(Str(ScheduleOnlyText))
    ensures ScheduleText(Str(ScheduleOnlyText))
    ensures StrictScheduleText(ScheduleOnlyText)
  {
    var s := ScheduleOnlyText;
    ScheduleOnlyLacksUrgent();
    ScheduleOnlyLacksAccident();
    ScheduleOnlyLacksException();
    assert s == "" + "Згідно графіку погодинних" + " відключень";
    ContainsMiddle("", "Згідно графіку погодинних", " відключень");
    ContainsAt("Згідно графіку погодинних", "Згідно графіку", 0);
    ContainsWithin(s, "Згідно графіку погодинних", "Згідно графіку");
  }

  lemma UnlistedLacksEmergencyMarkers()
    ensures !Contains(UnlistedText, "Екстренні відключення")
    ensures !Contains(UnlistedText, "екстренн")
    ensures !Contains(UnlistedText, "Аварійне")
    ensures !Contains(UnlistedText, "аварійн")
    ensures !Contains(UnlistedText, "без застосування графіку")
  {
    var s := UnlistedText;
    Lacks(s, "Екстренні відключення", 0);
    Lacks(s, "екстренн", 2);
    Lacks(s, "Аварійне", 0);
    Lacks(s, "аварійн", 5);
    Lacks(s, "без застосування графіку", 2);
  }

  lemma UnlistedLacksScheduleMarkers()
    ensures !Contains(UnlistedText, "графіку погодинних")
    ensures !Contains(UnlistedText, "Згідно графіку")
    ensures !Contains(UnlistedText, "According to")
    ensures !Contains(UnlistedText, "Стабілізаційне відключення")
    ensures !Contains(UnlistedText, "стабілізаційн")
    ensures !Contains(UnlistedText, "Згідно графіку погодинних")
  {
    var s := UnlistedText;
    Lacks(s, "графіку погодинних", 0);
    Lacks(s, "Згідно графіку", 0);
    Lacks(s, "According to", 0);
    Lacks(s, "Стабілізаційне відключення", 0);
    Lacks(s, "стабілізаційн", 0);
    Lacks(s, "Згідно графіку погодинних", 0);
  }

  lemma UnlistedIsUnmarked()
    ensures !EmergencyText(Str(UnlistedText))
    ensures !ScheduleText(Str(UnlistedText))
    ensures !StrictScheduleText(UnlistedText)
  {
    UnlistedLacksEmergencyMarkers();
    UnlistedLacksScheduleMarkers();
  }

  /** The conclusions for the tried texts: the real emergency text and the
      simple emergency text are emergencies, the stabilisation text and the
      bare schedule text are scheduled, and the empty text is neither. */
  lemma ClassifyFixtures()
    ensures Classify(RealEmergencyText) == Emergency
    ensures Classify(StabilisationText) == Scheduled
    ensures Classify(SimpleEmergencyText) == Emergency
    ensures Classify(ScheduleOnlyText) == Scheduled
    ensures Classify("") == Unknown && !ReportsEmergency("")
  {
    RealEmergencyIsMarked();
    StabilisationIsNotMarked();
    ScheduleOnlyIsNotMarked();
    ContainsAt(SimpleEmergencyText, "Аварійне", 0);
  }

  /** The marker rule and the exclusion rule disagree in both directions: the
      real emergency text mentions the hourly schedule, so the exclusion rule
      misses it, and an unlisted text is flagged by the exclusion rule only. */
  lemma MarkerAndExclusionDisagree()
    ensures Flags(MarkerRule, RecordWith(RealEmergencyText, "2"))
    ensures !Flags(ExclusionRule, RecordWith(RealEmergencyText, "2"))
    ensures !Flags(MarkerRule, RecordWith(UnlistedText, ""))
    ensures Flags(ExclusionRule, RecordWith(UnlistedText, ""))
  {
    RealEmergencyIsMarked();
    UnlistedIsUnmarked();
  }

  /** Option 1 flags a stabilisation outage of type "2" that option 2 lets
      pass as scheduled, so the recommendation calls it an emergency. */
  lemma TypeRuleOverridesScheduleText()
    ensures Flags(TypeRule, RecordWith(StabilisationText, "2"))
    ensures !Flags(NotScheduledRule, RecordWith(StabilisationText, "2"))
    ensures Recommend(RecordWith(StabilisationText, "2")) == TypeSaysEmergency
    ensures Recommend(RecordWith(StabilisationText, "")) == ScheduledOnly
  {
    StabilisationIsNotMarked();
  }

  /** An unlisted non-empty text defaults to an emergency in the three-way
      classification, while the marker rule of the emergency preview rejects
      every such text. */
  lemma UnknownDefaultsToEmergency(sub: string)
    requires sub != "" && Classify(sub) == Unknown
    ensures ReportsEmergency(sub)
    ensures !Flags(MarkerRule, RecordWith(sub, "2"))
  {
  }

  /** The unlisted text is such a text. */
  lemma UnlistedIsUnknown()
    ensures Classify(UnlistedText) == Unknown && ReportsEmergency(UnlistedText)
  {
    UnlistedIsUnmarked();
  }
}
